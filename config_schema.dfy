/**
 * The configuration records of config/schema.py and the checks their
 * `__post_init__` methods run. Each record becomes a datatype; each check
 * becomes a function that either returns the (normalised) record or the
 * `ValueError` the first failing check raises, with the source's message.
 */
module ConfigSchema {
  import opened Wrappers
  import opened Text
  import Json

  datatype ValueError = ValueError(message: string)

  /** `repr` of a list of strings, as an f-string renders it. */
  function ListRepr(xs: seq<string>): string {
    Json.Repr(Json.Arr(seq(|xs|, i requires 0 <= i < |xs| => Json.Str(xs[i]))))
  }

  // ----- VMConfig -----

  datatype VmConfig = VmConfig(
    memoryMb: int, vcpus: int, timeout: int, networkCidr: string, bootTimeout: int, shutdownTimeout: int)

  const DefaultVm := VmConfig(512, 1, 60, "172.50.0.0/24", 15, 10)

  /** `VMConfig.__post_init__`: memory, then vCPUs, then the timeout. */
  function CheckVm(c: VmConfig): (r: Result<VmConfig, ValueError>)
    ensures r.Ok? <==> 128 <= c.memoryMb <= 16384 && 1 <= c.vcpus <= 32 && c.timeout >= 10
    ensures r.Ok? ==> r.value == c
    ensures c.memoryMb < 128 ==> r == Err(ValueError("VM memory must be at least 128 MB"))
    ensures 128 <= c.memoryMb <= 16384 && !(1 <= c.vcpus <= 32) ==> r == Err(ValueError("VM vCPUs must be between 1 and 32"))
  {
    if c.memoryMb < 128 then Err(ValueError("VM memory must be at least 128 MB"))
    else if c.memoryMb > 16384 then Err(ValueError("VM memory should not exceed 16 GB"))
    else if c.vcpus < 1 || c.vcpus > 32 then Err(ValueError("VM vCPUs must be between 1 and 32"))
    else if c.timeout < 10 then Err(ValueError("VM timeout must be at least 10 seconds"))
    else Ok(c)
  }

  // ----- PathsConfig and FirecrackerConfig: no checks; paths are held as text (pathlib normalisation is not modelled) -----

  datatype PathsConfig = PathsConfig(vmImages: string, ubuntuImages: string, shared: string, results: string, temp: string)

  const DefaultPaths := PathsConfig("vm-images", "vm-images-ubuntu", "shared", "results", "/tmp")

  datatype FirecrackerConfig = FirecrackerConfig(binaryPath: string, socketDir: string, logDir: string)

  const DefaultFirecracker := FirecrackerConfig("firecracker", "/tmp", "logs")

  // ----- OpenAIConfig -----

  /** `temperature` is a Python float; it is held here as an exact real (NaN is not modelled). */
  datatype OpenAiConfig = OpenAiConfig(model: string, maxTokens: int, temperature: real, timeout: int)

  const DefaultOpenAi := OpenAiConfig("gpt-3.5-turbo", 500, 0.7, 30)

  const ValidModels: seq<string> := ["gpt-3.5-turbo", "gpt-3.5-turbo-16k", "gpt-4", "gpt-4-32k", "gpt-4-turbo-preview"]

  /** `OpenAIConfig.__post_init__`: max_tokens, temperature, timeout, then the model list. */
  function CheckOpenAi(c: OpenAiConfig): (r: Result<OpenAiConfig, ValueError>)
    ensures r.Ok? <==> 1 <= c.maxTokens <= 4096 && 0.0 <= c.temperature <= 2.0 && c.timeout >= 5 && c.model in ValidModels
    ensures r.Ok? ==> r.value == c
    ensures !(1 <= c.maxTokens <= 4096) ==> r == Err(ValueError("OpenAI max_tokens must be between 1 and 4096"))
    ensures 1 <= c.maxTokens <= 4096 && 0.0 <= c.temperature <= 2.0 && c.timeout >= 5 && c.model !in ValidModels
            ==> r == Err(ValueError("Invalid OpenAI model. Must be one of: " + ListRepr(ValidModels)))
  {
    if c.maxTokens < 1 || c.maxTokens > 4096 then Err(ValueError("OpenAI max_tokens must be between 1 and 4096"))
    else if !(0.0 <= c.temperature <= 2.0) then Err(ValueError("OpenAI temperature must be between 0.0 and 2.0"))
    else if c.timeout < 5 then Err(ValueError("OpenAI timeout must be at least 5 seconds"))
    else if c.model !in ValidModels then Err(ValueError("Invalid OpenAI model. Must be one of: " + ListRepr(ValidModels)))
    else Ok(c)
  }

  // ----- LoggingConfig -----

  datatype LoggingConfig = LoggingConfig(
    level: string, format: string, console: bool, file: Option<string>, rotation: string, retention: string, colorize: bool)

  const DefaultLogging := LoggingConfig("INFO", "detailed", true, None, "100 MB", "30 days", true)

  const ValidLevels: seq<string> := ["DEBUG", "INFO", "WARNING", "ERROR", "CRITICAL"]

  const ValidFormats: seq<string> := ["simple", "detailed", "json"]

  /**
   * `LoggingConfig.__post_init__`: the level is accepted in any letter case
   * and stored upper-cased; the format must match exactly.
   */
  function CheckLogging(c: LoggingConfig): (r: Result<LoggingConfig, ValueError>)
    ensures r.Ok? <==> Upper(c.level) in ValidLevels && c.format in ValidFormats
    ensures r.Ok? ==> r.value == c.(level := Upper(c.level)) && r.value.level in ValidLevels
    ensures Upper(c.level) !in ValidLevels ==> r == Err(ValueError("Invalid log level. Must be one of: " + ListRepr(ValidLevels)))
  {
    if Upper(c.level) !in ValidLevels then Err(ValueError("Invalid log level. Must be one of: " + ListRepr(ValidLevels)))
    else if c.format !in ValidFormats then Err(ValueError("Invalid log format. Must be one of: " + ListRepr(ValidFormats)))
    else Ok(c.(level := Upper(c.level)))
  }

  /** Checking an accepted logging record again changes nothing: the normalisation is idempotent. */
  lemma CheckLoggingIdempotent(c: LoggingConfig)
    requires CheckLogging(c).Ok?
    ensures CheckLogging(CheckLogging(c).value) == CheckLogging(c)
  {
    assert Upper(Upper(c.level)) == Upper(c.level);
  }

  /** The level's letter case does not matter: `"debug"` and `"DEBUG"` give the same record. */
  lemma LevelCaseInsensitive(c: LoggingConfig)
    ensures CheckLogging(c.(level := Lower(c.level))) == CheckLogging(c)
  {
    assert Upper(Lower(c.level)) == Upper(c.level);
  }

  // ----- NetworkConfig -----

  datatype NetworkConfig = NetworkConfig(tapPrefix: string, ipForward: bool, cleanupOnExit: bool)

  const DefaultNetwork := NetworkConfig("tap", true, true)

  /** `str.isalnum()`: non-empty and every character alphanumeric (ASCII here). */
  predicate IsAlnumText(s: string) {
    |s| > 0 && forall i :: 0 <= i < |s| ==> IsAlnum(s[i])
  }

  /** `NetworkConfig.__post_init__`: alphanumeric first, then the length. */
  function CheckNetwork(c: NetworkConfig): (r: Result<NetworkConfig, ValueError>)
    ensures r.Ok? <==> 1 <= |c.tapPrefix| <= 10 && forall i :: 0 <= i < |c.tapPrefix| ==> IsAlnum(c.tapPrefix[i])
    ensures r.Ok? ==> r.value == c
    ensures c.tapPrefix == "" ==> r == Err(ValueError("TAP prefix must be alphanumeric"))
  {
    if !IsAlnumText(c.tapPrefix) then Err(ValueError("TAP prefix must be alphanumeric"))
    else if |c.tapPrefix| > 10 then Err(ValueError("TAP prefix must be 10 characters or less"))
    else Ok(c)
  }

  // ----- TasksConfig -----

  datatype TasksConfig = TasksConfig(defaultTimeout: int, maxRetries: int, cleanupTempFiles: bool)

  const DefaultTasks := TasksConfig(60, 3, true)

  function CheckTasks(c: TasksConfig): (r: Result<TasksConfig, ValueError>)
    ensures r.Ok? <==> c.defaultTimeout >= 10 && 0 <= c.maxRetries <= 10
    ensures r.Ok? ==> r.value == c
    ensures c.defaultTimeout < 10 ==> r == Err(ValueError("Default timeout must be at least 10 seconds"))
  {
    if c.defaultTimeout < 10 then Err(ValueError("Default timeout must be at least 10 seconds"))
    else if c.maxRetries < 0 || c.maxRetries > 10 then Err(ValueError("Max retries must be between 0 and 10"))
    else Ok(c)
  }

  // ----- ResultsConfig -----

  datatype ResultsConfig = ResultsConfig(saveJson: bool, saveCode: bool, filenameTemplate: string, maxFilenameLength: int)

  const DefaultResults := ResultsConfig(true, true, "{vm_id}_{task_description}", 50)

  const VmIdPlaceholder := "{vm_id}"

  function CheckResults(c: ResultsConfig): (r: Result<ResultsConfig, ValueError>)
    ensures r.Ok? <==> 10 <= c.maxFilenameLength <= 200 && Contains(c.filenameTemplate, VmIdPlaceholder)
    ensures r.Ok? ==> r.value == c
    ensures 10 <= c.maxFilenameLength <= 200 && !Contains(c.filenameTemplate, VmIdPlaceholder)
            ==> r == Err(ValueError("Filename template must contain " + VmIdPlaceholder))
  {
    if c.maxFilenameLength < 10 || c.maxFilenameLength > 200 then Err(ValueError("Max filename length must be between 10 and 200"))
    else if !Contains(c.filenameTemplate, VmIdPlaceholder) then Err(ValueError("Filename template must contain " + VmIdPlaceholder))
    else Ok(c)
  }

  // ----- FirecrackerOrchestratorConfig -----

  /** The sections' values. */
  datatype RawConfig = RawConfig(
    vm: VmConfig, paths: PathsConfig, openai: OpenAiConfig, logging: LoggingConfig,
    firecracker: FirecrackerConfig, network: NetworkConfig, tasks: TasksConfig, results: ResultsConfig)

  const DefaultRaw := RawConfig(DefaultVm, DefaultPaths, DefaultOpenAi, DefaultLogging,
                                DefaultFirecracker, DefaultNetwork, DefaultTasks, DefaultResults)

  /**
   * What a section handed to the constructor is: a section dataclass (its
   * own checks ran when it was built, before the constructor sees it), an
   * OmegaConf node (attribute reads work and no check runs), or a plain
   * `dict` (an attribute read raises `AttributeError`).
   */
  datatype Form = Dataclass | ConfigNode | PlainDict

  /** The forms of the four sections the constructor's `__post_init__` reads. */
  datatype Forms = Forms(vm: Form, tasks: Form, paths: Form, firecracker: Form)

  const Dataclasses := Forms(Dataclass, Dataclass, Dataclass, Dataclass)

  /** The message of the `AttributeError` that reading `attr` from a plain `dict` raises. */
  function NoAttribute(attr: string): string {
    "'dict' object has no attribute '" + attr + "'"
  }

  /** What `Path(d).mkdir(parents=True, exist_ok=True)` did for one directory. */
  datatype MkdirOutcome = Made | PermissionDenied | Failed(message: string)

  /** The directories `_ensure_directories` creates, in order. */
  function RequiredDirectories(c: RawConfig): seq<string> {
    [c.paths.shared, c.paths.results, c.firecracker.logDir]
  }

  /** The first directory whose creation failed with something other than a permission error. */
  function FirstHardFailure(dirs: seq<string>, mkdir: string -> MkdirOutcome): (r: Option<string>)
    ensures r.None? <==> forall i :: 0 <= i < |dirs| ==> !mkdir(dirs[i]).Failed?
    ensures r.Some? ==> exists i :: 0 <= i < |dirs| && mkdir(dirs[i]) == Failed(r.value)
    decreases |dirs|
  {
    if |dirs| == 0 then None
    else if mkdir(dirs[0]).Failed? then Some(mkdir(dirs[0]).message)
    else
      var r := FirstHardFailure(dirs[1..], mkdir);
      assert forall i :: 1 <= i < |dirs| ==> dirs[i] == dirs[1..][i - 1];
      r
  }

  /** Every section's check passes. */
  predicate SectionsValid(c: RawConfig) {
    CheckVm(c.vm).Ok? && CheckOpenAi(c.openai).Ok? && CheckLogging(c.logging).Ok?
    && CheckNetwork(c.network).Ok? && CheckTasks(c.tasks).Ok? && CheckResults(c.results).Ok?
  }

  /** The record a fully checked configuration holds: only the logging level changes. */
  function Normalised(c: RawConfig): RawConfig
    requires CheckLogging(c.logging).Ok?
  {
    c.(logging := CheckLogging(c.logging).value)
  }

  /**
   * Building every section dataclass (what the constructor's default
   * factories, or a caller building the sections, do): the sections' own
   * `__post_init__` checks in field order.
   */
  function BuildSections(c: RawConfig): (r: Result<RawConfig, ValueError>)
    ensures r.Ok? <==> SectionsValid(c)
    ensures r.Ok? ==> CheckLogging(c.logging).Ok? && r.value == Normalised(c)
    ensures CheckVm(c.vm).Err? ==> r == Err(CheckVm(c.vm).error)
  {
    if CheckVm(c.vm).Err? then Err(CheckVm(c.vm).error)
    else if CheckOpenAi(c.openai).Err? then Err(CheckOpenAi(c.openai).error)
    else if CheckLogging(c.logging).Err? then Err(CheckLogging(c.logging).error)
    else if CheckNetwork(c.network).Err? then Err(CheckNetwork(c.network).error)
    else if CheckTasks(c.tasks).Err? then Err(CheckTasks(c.tasks).error)
    else if CheckResults(c.results).Err? then Err(CheckResults(c.results).error)
    else Ok(Normalised(c))
  }

  /**
   * `FirecrackerOrchestratorConfig(**config)`: the sections are stored as
   * given and only the class's own `__post_init__` runs. It reads
   * `vm.timeout` and `tasks.default_timeout` for the cross-section check,
   * then `paths.shared`, `paths.results` and `firecracker.log_dir` for
   * directory creation, where a permission error is ignored and any other
   * error is raised. A plain `dict` section fails at its first attribute
   * read. The error is held as the raised exception's message, which is all
   * `validate_config` keeps of it.
   */
  function BuildConfig(c: RawConfig, forms: Forms, mkdir: string -> MkdirOutcome): (r: Result<RawConfig, ValueError>)
    ensures r.Ok? <==> forms.vm != PlainDict && forms.tasks != PlainDict && c.vm.timeout <= c.tasks.defaultTimeout
                       && forms.paths != PlainDict && forms.firecracker != PlainDict
                       && FirstHardFailure(RequiredDirectories(c), mkdir).None?
    ensures r.Ok? ==> r.value == c
    ensures forms.vm == PlainDict ==> r == Err(ValueError(NoAttribute("timeout")))
    ensures forms.vm != PlainDict && forms.tasks != PlainDict && c.vm.timeout > c.tasks.defaultTimeout
            ==> r == Err(ValueError("VM timeout should not exceed default task timeout"))
  {
    if forms.vm == PlainDict then Err(ValueError(NoAttribute("timeout")))
    else if forms.tasks == PlainDict then Err(ValueError(NoAttribute("default_timeout")))
    else if c.vm.timeout > c.tasks.defaultTimeout then Err(ValueError("VM timeout should not exceed default task timeout"))
    else if forms.paths == PlainDict then Err(ValueError(NoAttribute("shared")))
    else if forms.firecracker == PlainDict then Err(ValueError(NoAttribute("log_dir")))
    else match FirstHardFailure(RequiredDirectories(c), mkdir)
      case Some(m) => Err(ValueError(m))
      case None => Ok(c)
  }

  const ValidationFailed := "Configuration validation failed: "

  /** `validate_config`: any failure comes back as one `ValueError` with a fixed prefix. */
  function ValidateConfig(c: RawConfig, forms: Forms, mkdir: string -> MkdirOutcome): (r: Result<RawConfig, ValueError>)
    ensures r.Ok? <==> BuildConfig(c, forms, mkdir).Ok?
    ensures r.Ok? ==> r.value == c
    ensures r.Err? ==> r.error.message == ValidationFailed + BuildConfig(c, forms, mkdir).error.message
  {
    match BuildConfig(c, forms, mkdir)
    case Ok(v) => Ok(v)
    case Err(e) => Err(ValueError(ValidationFailed + e.message))
  }

  /** The shipped defaults pass every section check and the cross-section check (60 <= 60). */
  lemma DefaultsAccepted(mkdir: string -> MkdirOutcome)
    requires forall d :: !mkdir(d).Failed?
    ensures BuildSections(DefaultRaw) == Ok(DefaultRaw)
    ensures BuildConfig(DefaultRaw, Dataclasses, mkdir) == Ok(DefaultRaw)
  {
    assert Upper("INFO") == "INFO";
    assert "detailed" in ValidFormats;
    assert IsAlnum('t') && IsAlnum('a') && IsAlnum('p');
    assert "{vm_id}" <= DefaultResults.filenameTemplate;
  }

  /**
   * As written, a configuration whose `vm` section is a plain mapping is
   * rejected whatever it holds: reading `vm.timeout` fails first.
   */
  lemma PlainDictSectionsRejected(c: RawConfig, forms: Forms, mkdir: string -> MkdirOutcome)
    requires forms.vm == PlainDict
    ensures ValidateConfig(c, forms, mkdir) == Err(ValueError(ValidationFailed + NoAttribute("timeout")))
  {
  }

  /**
   * As written, OmegaConf sections are never checked: a VM section with 1 MB
   * of memory, which `VMConfig` rejects, passes `validate_config`.
   */
  lemma SectionChecksSkipped(mkdir: string -> MkdirOutcome)
    requires forall d :: !mkdir(d).Failed?
    ensures var c := DefaultRaw.(vm := DefaultVm.(memoryMb := 1));
            BuildSections(c).Err? && ValidateConfig(c, Forms(ConfigNode, ConfigNode, ConfigNode, ConfigNode), mkdir) == Ok(c)
  {
    var c := DefaultRaw.(vm := DefaultVm.(memoryMb := 1));
    assert CheckVm(c.vm).Err?;
    assert FirstHardFailure(RequiredDirectories(c), mkdir).None?;
  }

  /**
   * The evidently intended `validate_config`: the sections are built (and
   * so checked) first, then the whole configuration.
   */
  function ValidateConfigChecked(c: RawConfig, mkdir: string -> MkdirOutcome): (r: Result<RawConfig, ValueError>)
    ensures r.Ok? <==> SectionsValid(c) && c.vm.timeout <= c.tasks.defaultTimeout
                       && FirstHardFailure(RequiredDirectories(c), mkdir).None?
    ensures r.Ok? ==> CheckLogging(c.logging).Ok? && r.value == Normalised(c)
    ensures CheckVm(c.vm).Err? ==> r == Err(ValueError(ValidationFailed + CheckVm(c.vm).error.message))
  {
    match BuildSections(c)
    case Err(e) => Err(ValueError(ValidationFailed + e.message))
    case Ok(v) => ValidateConfig(v, Dataclasses, mkdir)
  }

  /** The corrected validation accepts the defaults unchanged. */
  lemma CheckedAcceptsDefaults(mkdir: string -> MkdirOutcome)
    requires forall d :: !mkdir(d).Failed?
    ensures ValidateConfigChecked(DefaultRaw, mkdir) == Ok(DefaultRaw)
  {
    DefaultsAccepted(mkdir);
  }

  /** Accepted configurations are fixed points of the corrected validation. */
  lemma ValidateConfigCheckedIdempotent(c: RawConfig, mkdir: string -> MkdirOutcome)
    requires ValidateConfigChecked(c, mkdir).Ok?
    ensures ValidateConfigChecked(ValidateConfigChecked(c, mkdir).value, mkdir) == ValidateConfigChecked(c, mkdir)
  {
    CheckLoggingIdempotent(c.logging);
  }

  // ----- get_openai_api_key -----

  const ApiKeyMissing := "OPENAI_API_KEY environment variable is required. Set it with: export OPENAI_API_KEY='your-key-here'"

  /** `get_openai_api_key`: the variable must be set, non-empty and start with `sk-`. */
  function GetOpenAiApiKey(env: map<string, string>): (r: Result<string, ValueError>)
    ensures r.Ok? <==> "OPENAI_API_KEY" in env && "sk-" <= env["OPENAI_API_KEY"]
    ensures r.Ok? ==> r.value == env["OPENAI_API_KEY"] && |r.value| >= 3
    ensures ("OPENAI_API_KEY" !in env || env["OPENAI_API_KEY"] == "") ==> r == Err(ValueError(ApiKeyMissing))
  {
    if "OPENAI_API_KEY" !in env || env["OPENAI_API_KEY"] == "" then Err(ValueError(ApiKeyMissing))
    else if !("sk-" <= env["OPENAI_API_KEY"]) then Err(ValueError("Invalid OpenAI API key format"))
    else Ok(env["OPENAI_API_KEY"])
  }
}
