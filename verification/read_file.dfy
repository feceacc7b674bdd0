/** The file-reading step: it renders its configured path against the
    execution context, reads the file found there and stores the text in the
    context under its artifact name. A missing file either stores the empty
    string (optional files) or raises; a file that exists but cannot be read
    re-raises the read error. */
module ReadFile {
  import opened Results
  import opened Text
  import opened ExecutionContext

  // ---------------------------------------------------------------------
  // Configuration
  // ---------------------------------------------------------------------

  /** The step's validated configuration. */
  datatype ReadFileConfig = ReadFileConfig(path: string, artifact: string, optional: bool)

  /** A raw configuration value, as found in the step's definition. */
  datatype RawValue = RawString(text: string) | RawBool(flag: bool) | RawOther

  /** The configuration fields, in declaration order. */
  const ConfigFields: seq<string> := ["path", "artifact", "optional"]

  /** The required string field `name`, when present with a string value. */
  function StringField(raw: map<string, RawValue>, name: string): (r: Option<string>)
    ensures r.Some? <==> name in raw && raw[name].RawString?
    ensures r.Some? ==> raw[name] == RawString(r.value)
  {
    if name in raw && raw[name].RawString? then Some(raw[name].text) else None
  }

  /** The optional flag: false when absent, its value when a boolean, and
      nothing (invalid) otherwise. */
  function OptionalField(raw: map<string, RawValue>): (r: Option<bool>)
    ensures "optional" !in raw ==> r == Some(false)
    ensures "optional" in raw ==> (r.Some? <==> raw["optional"].RawBool?)
    ensures "optional" in raw && r.Some? ==> raw["optional"] == RawBool(r.value)
  {
    if "optional" !in raw then Some(false)
    else if raw["optional"].RawBool? then Some(raw["optional"].flag)
    else None
  }

  /** Validation of the step's definition into a `ReadFileConfig`: `path` and
      `artifact` must be present as strings, `optional` may be omitted and
      must otherwise be a boolean. A failure names every invalid field, in
      declaration order; other keys are ignored. */
  function ParseReadFileConfig(raw: map<string, RawValue>): (r: Result<ReadFileConfig, seq<string>>)
    ensures r.Success? <==>
      StringField(raw, "path").Some? && StringField(raw, "artifact").Some? && OptionalField(raw).Some?
    ensures r.Success? ==> r.value == ReadFileConfig(
      StringField(raw, "path").value, StringField(raw, "artifact").value, OptionalField(raw).value)
    ensures r.Failure? ==> r.error != [] && forall name | name in r.error :: name in ConfigFields
    ensures r.Failure? ==> ("path" in r.error <==> StringField(raw, "path").None?)
    ensures r.Failure? ==> ("artifact" in r.error <==> StringField(raw, "artifact").None?)
    ensures r.Failure? ==> ("optional" in r.error <==> OptionalField(raw).None?)
  {
    var path, artifact, optional := StringField(raw, "path"), StringField(raw, "artifact"), OptionalField(raw);
    if path.Some? && artifact.Some? && optional.Some? then
      Success(ReadFileConfig(path.value, artifact.value, optional.value))
    else
      Failure((if path.None? then ["path"] else [])
        + (if artifact.None? then ["artifact"] else [])
        + (if optional.None? then ["optional"] else []))
  }

  /** A definition that omits `optional` but gives both strings yields a
      configuration whose `optional` is false, whatever other keys it has. */
  lemma OptionalDefaultsToFalse(raw: map<string, RawValue>)
    requires StringField(raw, "path").Some? && StringField(raw, "artifact").Some?
    requires "optional" !in raw
    ensures ParseReadFileConfig(raw)
      == Success(ReadFileConfig(StringField(raw, "path").value, StringField(raw, "artifact").value, false))
  {
  }

  /** A definition without `path`, or without `artifact`, is rejected, and
      the failure names the missing field. */
  lemma PathAndArtifactRequired(raw: map<string, RawValue>)
    ensures "path" !in raw ==> ParseReadFileConfig(raw).Failure? && "path" in ParseReadFileConfig(raw).error
    ensures "artifact" !in raw ==> ParseReadFileConfig(raw).Failure? && "artifact" in ParseReadFileConfig(raw).error
  {
  }

  /** The definition a configuration is written back as. */
  function ConfigDefinition(config: ReadFileConfig): map<string, RawValue> {
    map["path" := RawString(config.path), "artifact" := RawString(config.artifact),
        "optional" := RawBool(config.optional)]
  }

  /** Validation recovers every configuration from its definition. */
  lemma ParseConfigDefinition(config: ReadFileConfig)
    ensures ParseReadFileConfig(ConfigDefinition(config)) == Success(config)
  {
  }

  /** A validated configuration written back agrees with its definition on
      every configuration field the definition gives. */
  lemma ConfigDefinitionOfParse(raw: map<string, RawValue>)
    requires ParseReadFileConfig(raw).Success?
    ensures var definition := ConfigDefinition(ParseReadFileConfig(raw).value);
      forall name | name in ConfigFields && name in raw :: definition[name] == raw[name]
  {
  }

  // ---------------------------------------------------------------------
  // Environment
  // ---------------------------------------------------------------------

  /** What the file system holds at an existing path: a file's decoded text,
      or something that exists but cannot be opened or decoded. */
  datatype Entry = Contents(text: string) | Unreadable

  /** The file system, by path; a path that is not a key does not exist. */
  type FileSystem = map<string, Entry>

  /** Template rendering of a path against the context's artifacts, which
      either yields the rendered text or fails with a message. */
  type Renderer = (string, map<string, string>) -> Result<string, string>

  /** Why the step raised. */
  datatype StepError =
    | RenderError(message: string)
    | FileNotFound(message: string)
    | ReadError(path: string)

  /** How a run of the step ended. */
  datatype StepOutcome = Completed | Raised(error: StepError)

  /** The outcome of a run together with the artifacts it leaves behind. */
  datatype Execution = Execution(outcome: StepOutcome, artifacts: map<string, string>)

  /** The message of the error raised for a missing required file. */
  function NotFoundMessage(path: string): string {
    "ReadFileStep: file not found at path: " + path
  }

  /** A run of the step on `artifacts`: render the path once, then check for
      the file, and read it, at that one path. A raise leaves the artifacts
      as they were; completing writes the artifact key and nothing else. */
  function ExecuteSpec(config: ReadFileConfig, artifacts: map<string, string>, fs: FileSystem, render: Renderer)
    : (r: Execution)
    ensures r.outcome.Raised? ==> r.artifacts == artifacts
    ensures r.outcome.Completed? ==>
      config.artifact in r.artifacts
      && r.artifacts == artifacts[config.artifact := r.artifacts[config.artifact]]
  {
    match render(config.path, artifacts)
    case Failure(message) => Execution(Raised(RenderError(message)), artifacts)
    case Success(path) =>
      if path !in fs then
        if config.optional then Execution(Completed, artifacts[config.artifact := ""])
        else Execution(Raised(FileNotFound(NotFoundMessage(path))), artifacts)
      else
        match fs[path]
        case Unreadable => Execution(Raised(ReadError(path)), artifacts)
        case Contents(text) => Execution(Completed, artifacts[config.artifact := text])
  }

  /** A missing optional file stores the empty string and completes. */
  lemma MissingOptionalFileStoresEmpty(
    config: ReadFileConfig, artifacts: map<string, string>, fs: FileSystem, render: Renderer, path: string)
    requires render(config.path, artifacts) == Success(path)
    requires path !in fs && config.optional
    ensures ExecuteSpec(config, artifacts, fs, render)
      == Execution(Completed, artifacts[config.artifact := ""])
  {
  }

  /** A missing required file raises a not-found error whose message names
      the rendered path, and the artifacts are untouched. */
  lemma MissingRequiredFileRaises(
    config: ReadFileConfig, artifacts: map<string, string>, fs: FileSystem, render: Renderer, path: string)
    requires render(config.path, artifacts) == Success(path)
    requires path !in fs && !config.optional
    ensures var r := ExecuteSpec(config, artifacts, fs, render);
      && r.outcome.Raised? && r.outcome.error.FileNotFound?
      && Contains(r.outcome.error.message, path)
      && r.artifacts == artifacts
  {
    ContainsSuffix("ReadFileStep: file not found at path: ", path);
  }

  /** An existing readable file completes the step with its text stored
      under the artifact name. */
  lemma ExistingFileStored(
    config: ReadFileConfig, artifacts: map<string, string>, fs: FileSystem, render: Renderer, path: string)
    requires render(config.path, artifacts) == Success(path)
    requires path in fs && fs[path].Contents?
    ensures var r := ExecuteSpec(config, artifacts, fs, render);
      && r.outcome == Completed
      && r.artifacts[config.artifact] == fs[path].text
  {
  }

  /** A file that exists but cannot be read re-raises the read error and
      leaves the artifacts untouched. */
  lemma UnreadableFileReraises(
    config: ReadFileConfig, artifacts: map<string, string>, fs: FileSystem, render: Renderer, path: string)
    requires render(config.path, artifacts) == Success(path)
    requires path in fs && fs[path] == Unreadable
    ensures ExecuteSpec(config, artifacts, fs, render) == Execution(Raised(ReadError(path)), artifacts)
  {
  }

  /** The step completes exactly when the path renders and the file there is
      readable, or is missing and optional. */
  lemma CompletesIff(config: ReadFileConfig, artifacts: map<string, string>, fs: FileSystem, render: Renderer)
    ensures ExecuteSpec(config, artifacts, fs, render).outcome == Completed <==>
      && render(config.path, artifacts).Success?
      && var path := render(config.path, artifacts).value;
        (path in fs ==> fs[path].Contents?) && (path !in fs ==> config.optional)
  {
  }

  /** The file system is consulted at the one rendered path only: two file
      systems that agree there give the same run. */
  lemma OnlyRenderedPathMatters(
    config: ReadFileConfig, artifacts: map<string, string>, fs1: FileSystem, fs2: FileSystem, render: Renderer)
    requires var rendered := render(config.path, artifacts);
      rendered.Success? ==>
        (rendered.value in fs1 <==> rendered.value in fs2)
        && (rendered.value in fs1 ==> fs1[rendered.value] == fs2[rendered.value])
    ensures ExecuteSpec(config, artifacts, fs1, render) == ExecuteSpec(config, artifacts, fs2, render)
  {
  }

  // ---------------------------------------------------------------------
  // The step
  // ---------------------------------------------------------------------

  class ReadFileStep {
    const config: ReadFileConfig

    constructor(config: ReadFileConfig)
      ensures this.config == config
    {
      this.config := config;
    }

    /** Runs the step against the shared `context`: the path is rendered
        before any write, and the context changes only by the one write of
        the artifact key on completion. */
    method Execute(context: Context, fs: FileSystem, render: Renderer) returns (outcome: StepOutcome)
      modifies context
      ensures Execution(outcome, context.artifacts) == ExecuteSpec(config, old(context.artifacts), fs, render)
    {
      var rendered := render(config.path, context.artifacts);
      if rendered.Failure? {
        return Raised(RenderError(rendered.error));
      }
      var path := rendered.value;
      if path !in fs {
        if config.optional {
          context.Set(config.artifact, "");
          return Completed;
        } else {
          var message := NotFoundMessage(path);
          return Raised(FileNotFound(message));
        }
      }
      var entry := fs[path];
      if entry.Unreadable? {
        return Raised(ReadError(path));
      }
      context.Set(config.artifact, entry.text);
      outcome := Completed;
    }
  }

  /** Building the step from its definition: validation either yields a
      step holding the validated configuration or fails naming the invalid
      fields. */
  method NewReadFileStep(raw: map<string, RawValue>) returns (r: Result<ReadFileStep, seq<string>>)
    ensures r.Success? <==> ParseReadFileConfig(raw).Success?
    ensures r.Success? ==> fresh(r.value) && r.value.config == ParseReadFileConfig(raw).value
    ensures r.Failure? ==> r.error == ParseReadFileConfig(raw).error
  {
    match ParseReadFileConfig(raw)
    case Failure(fields) =>
      r := Failure(fields);
    case Success(config) =>
      var step := new ReadFileStep(config);
      r := Success(step);
  }
}
