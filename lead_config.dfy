/** The lead agent's configuration: four fields, each taken from the
    environment variable named by its upper-cased name, else from the run's
    `configurable` settings, else its default, where an empty or false value
    counts as unset. */
module LeadConfig {
  import opened Wrappers
  import opened Values
  import opened Text

  datatype Configuration = Configuration(
    leadSearchModel: Value,
    reportGenerationModel: Value,
    leadSearchTemperature: Value,
    reportGenerationTemperature: Value)

  /** The environment: variable names to their values. */
  type Environment = map<string, string>

  /** A run's config: absent, or a dictionary that may hold "configurable". */
  type RunConfig = Option<map<string, Value>>

  const LeadSearchModelField: string := "lead_search_model"
  const ReportGenerationModelField: string := "report_generation_model"
  const LeadSearchTemperatureField: string := "lead_search_temperature"
  const ReportGenerationTemperatureField: string := "report_generation_temperature"

  const DefaultModel: string := "gemini-1.5-flash-latest"

  const Defaults: Configuration :=
    Configuration(Str(DefaultModel), Str(DefaultModel), Float(0.2), Float(0.5))

  /** The `configurable` settings; an absent or empty config, or one without
      the key, has none. */
  function Configurable(config: RunConfig): Value {
    if config.Some? && config.value != map[] && "configurable" in config.value
    then config.value["configurable"] else Dict(map[])
  }

  /** The value a field resolves to before the falsy filter: the environment
      variable when it is set, even to "", else the configurable entry, else
      None. */
  function Lookup(env: Environment, configurable: map<string, Value>, name: string): Value {
    if Upper(name) in env then Str(env[Upper(name)]) else Get(configurable, name)
  }

  /** A field after the falsy filter: a falsy value leaves the default. */
  function Field(env: Environment, configurable: map<string, Value>, name: string, default: Value): Value {
    var v := Lookup(env, configurable, name);
    if Truthy(v) then v else default
  }

  /** `LeadIdentificationConfiguration.from_runnable_config`. A `configurable`
      that is not a dictionary has no `get`. */
  function FromRunnableConfig(env: Environment, config: RunConfig): Outcome<Configuration> {
    match Configurable(config)
    case Dict(c) =>
      Ok(Configuration(
        Field(env, c, LeadSearchModelField, Defaults.leadSearchModel),
        Field(env, c, ReportGenerationModelField, Defaults.reportGenerationModel),
        Field(env, c, LeadSearchTemperatureField, Defaults.leadSearchTemperature),
        Field(env, c, ReportGenerationTemperatureField, Defaults.reportGenerationTemperature)))
    case other => Raise("AttributeError: '" + TypeName(other) + "' object has no attribute 'get'")
  }

  /** The precedence of one field: a non-empty environment variable wins; an
      empty one hides the configurable entry and leaves the default; without
      the variable a truthy configurable entry wins; otherwise the default. */
  lemma FieldPrecedence(env: Environment, configurable: map<string, Value>, name: string, default: Value)
    ensures var v := Field(env, configurable, name, default);
            (Upper(name) in env && env[Upper(name)] != "" ==> v == Str(env[Upper(name)]))
            && (Upper(name) in env && env[Upper(name)] == "" ==> v == default)
            && (Upper(name) !in env && name in configurable && Truthy(configurable[name]) ==> v == configurable[name])
            && (Upper(name) !in env && (name !in configurable || !Truthy(configurable[name])) ==> v == default)
  {
  }

  /** Each resolved field is truthy or is its default. */
  lemma FieldsTruthyOrDefault(env: Environment, config: RunConfig)
    ensures var r := FromRunnableConfig(env, config);
            r.Ok? ==> (Truthy(r.value.leadSearchModel) || r.value.leadSearchModel == Defaults.leadSearchModel)
                      && (Truthy(r.value.reportGenerationModel) || r.value.reportGenerationModel == Defaults.reportGenerationModel)
                      && (Truthy(r.value.leadSearchTemperature) || r.value.leadSearchTemperature == Defaults.leadSearchTemperature)
                      && (Truthy(r.value.reportGenerationTemperature)
                          || r.value.reportGenerationTemperature == Defaults.reportGenerationTemperature)
  {
  }

  /** With nothing in the environment and no config, every field keeps its
      default. */
  lemma NothingSetGivesDefaults(config: RunConfig)
    requires config.None? || config.value == map[] || "configurable" !in config.value
    ensures FromRunnableConfig(map[], config) == Ok(Defaults)
  {
    var c: map<string, Value> := map[];
    assert Field(map[], c, LeadSearchModelField, Defaults.leadSearchModel) == Defaults.leadSearchModel;
    assert Field(map[], c, ReportGenerationModelField, Defaults.reportGenerationModel) == Defaults.reportGenerationModel;
    assert Field(map[], c, LeadSearchTemperatureField, Defaults.leadSearchTemperature) == Defaults.leadSearchTemperature;
    assert Field(map[], c, ReportGenerationTemperatureField, Defaults.reportGenerationTemperature)
        == Defaults.reportGenerationTemperature;
  }

  /** Only the four declared fields are read: configurable settings that agree
      on them give the same configuration, whatever else they hold. */
  lemma ExtraKeysIgnored(env: Environment, c1: map<string, Value>, c2: map<string, Value>)
    requires forall name :: name in {LeadSearchModelField, ReportGenerationModelField,
                                     LeadSearchTemperatureField, ReportGenerationTemperatureField}
                            ==> Get(c1, name) == Get(c2, name)
    ensures FromRunnableConfig(env, Some(map["configurable" := Dict(c1)]))
            == FromRunnableConfig(env, Some(map["configurable" := Dict(c2)]))
  {
    assert Get(c1, LeadSearchModelField) == Get(c2, LeadSearchModelField);
    assert Get(c1, ReportGenerationModelField) == Get(c2, ReportGenerationModelField);
    assert Get(c1, LeadSearchTemperatureField) == Get(c2, LeadSearchTemperatureField);
    assert Get(c1, ReportGenerationTemperatureField) == Get(c2, ReportGenerationTemperatureField);
  }

  /** A config without "configurable" resolves as if its settings were empty. */
  lemma MissingConfigurableIsEmpty(env: Environment, config: RunConfig)
    requires config.None? || "configurable" !in config.value
    ensures FromRunnableConfig(env, config) == FromRunnableConfig(env, Some(map["configurable" := Dict(map[])]))
  {
  }
}
