/**
 The dictionaries a pipeline is published as
 (app/infrastructure/yaml_generator/pipeline_yaml_generator.py, app/domain/pipelines/compute_config.py)
 and the normaliser that reads them back (app/application/pipelines/pipeline_normalizer.py).
 */
module PipelineYaml {
  import opened Wrappers
  import opened Watermark

  /** The keys of the dictionaries: the names both sides spell out, and any other. */
  datatype Key =
    | ASSET_NAME | OBJECTS | OBJECT_NAME | LOAD_STRATEGY | PAGE_SIZE | COMPRESSION | ENCODING | CREDENTIAL_REF
    | WATERMARK_COLUMN | WATERMARK_TYPE | WATERMARK_INITIAL_VALUE | PARTITION_COLUMN | EXTRACTION_QUERY | SENSOR
    | QUERY | TIMEOUT_MINUTES | POKE_INTERVAL_SECONDS | CREATE_IF_NOT_EXISTS | SCHEMA_FIELDS | NUM_WORKERS
    | MACHINE_TYPE | SOURCE_TYPE | DRIVER | ENDPOINT | RECORDS_PATH | FORMAT | MULTILINE | ENGINE | STAGING_BUCKET
    | CONFIG | SELECT | TYPE | COLUMN | VALUE | METRICS | RETRIES | RETRY_DELAY_MINUTES | EXECUTION_TIMEOUT_MINUTES
    | SLA_MINUTES | TAGS | POOL | OTHER(name: string)

  /** A YAML value; Null is Python's None. */
  datatype Value =
    | Null
    | B(b: bool)
    | I(i: int)
    | R(r: real)
    | S(s: string)
    | L(items: seq<Value>)
    | D(entries: map<Key, Value>)

  type Dict = map<Key, Value>

  predicate Truthy(v: Value) {
    match v
    case Null => false
    case B(b) => b
    case I(i) => i != 0
    case R(r) => r != 0.0
    case S(s) => s != ""
    case L(items) => items != []
    case D(entries) => entries != map[]
  }

  function Get(d: Dict, key: Key, default_: Value): Value {
    if key in d then d[key] else default_
  }

  datatype PythonError = KeyError | ValueError | TypeError

  /** How int() reads a text, how str() writes a value, and what tuple() makes of a value that is no list. */
  datatype Python = Python(
    parseInt: string -> Result<int, PythonError>,
    render: Value -> string,
    iterate: Value -> Result<seq<Value>, PythonError>)

  function AsInt(py: Python, v: Value): Result<int, PythonError> {
    match v
    case I(i) => Ok(i)
    case B(b) => Ok(if b then 1 else 0)
    case R(r) => Ok(if r >= 0.0 then r.Floor else -(-r).Floor)
    case S(s) => py.parseInt(s)
    case _ => Err(TypeError)
  }

  function AsStr(py: Python, v: Value): string {
    if v.S? then v.s else py.render(v)
  }

  function AsTuple(py: Python, v: Value): Result<seq<Value>, PythonError> {
    if v.L? then Ok(v.items) else py.iterate(v)
  }

  // ---------- Enumerations, and reading one from its value ----------

  datatype LoadStrategy = FULL_LOAD | INCREMENTAL | CDC

  function LoadStrategyValue(l: LoadStrategy): string {
    match l
    case FULL_LOAD => "full_load"
    case INCREMENTAL => "incremental"
    case CDC => "cdc"
  }

  function LoadStrategyOf(v: Value): Result<LoadStrategy, PythonError> {
    if v == S("full_load") then Ok(FULL_LOAD)
    else if v == S("incremental") then Ok(INCREMENTAL)
    else if v == S("cdc") then Ok(CDC)
    else Err(ValueError)
  }

  function WatermarkTypeValue(t: WatermarkType): string {
    match t
    case INTEGER => "integer"
    case FLOAT => "float"
    case TIMESTAMP => "timestamp"
    case DATE => "date"
    case STRING => "string"
  }

  function WatermarkTypeOf(v: Value): Result<WatermarkType, PythonError> {
    if v == S("integer") then Ok(INTEGER)
    else if v == S("float") then Ok(FLOAT)
    else if v == S("timestamp") then Ok(TIMESTAMP)
    else if v == S("date") then Ok(DATE)
    else if v == S("string") then Ok(STRING)
    else Err(ValueError)
  }

  datatype ComputeEngine = DUCKDB | SPARK | DATAFLOW | DEFAULT | REST_API | OMNIBEAM | DBT | DATAFORM

  function ComputeEngineValue(e: ComputeEngine): string {
    match e
    case DUCKDB => "duckdb"
    case SPARK => "spark"
    case DATAFLOW => "dataflow"
    case DEFAULT => "default"
    case REST_API => "rest_api"
    case OMNIBEAM => "omnibeam"
    case DBT => "dbt"
    case DATAFORM => "dataform"
  }

  function ComputeEngineOf(v: Value): Result<ComputeEngine, PythonError> {
    if v == S("duckdb") then Ok(DUCKDB)
    else if v == S("spark") then Ok(SPARK)
    else if v == S("dataflow") then Ok(DATAFLOW)
    else if v == S("default") then Ok(DEFAULT)
    else if v == S("rest_api") then Ok(REST_API)
    else if v == S("omnibeam") then Ok(OMNIBEAM)
    else if v == S("dbt") then Ok(DBT)
    else if v == S("dataform") then Ok(DATAFORM)
    else Err(ValueError)
  }

  datatype QualityRuleType = NOT_NULL | ROW_COUNT_MIN | UNIQUE | ACCEPTED_VALUES | REFERENTIAL_INTEGRITY | CHECKSUM

  function QualityRuleTypeValue(t: QualityRuleType): string {
    match t
    case NOT_NULL => "not_null"
    case ROW_COUNT_MIN => "row_count_min"
    case UNIQUE => "unique"
    case ACCEPTED_VALUES => "accepted_values"
    case REFERENTIAL_INTEGRITY => "referential_integrity"
    case CHECKSUM => "checksum"
  }

  function QualityRuleTypeOf(v: Value): Result<QualityRuleType, PythonError> {
    if v == S("not_null") then Ok(NOT_NULL)
    else if v == S("row_count_min") then Ok(ROW_COUNT_MIN)
    else if v == S("unique") then Ok(UNIQUE)
    else if v == S("accepted_values") then Ok(ACCEPTED_VALUES)
    else if v == S("referential_integrity") then Ok(REFERENTIAL_INTEGRITY)
    else if v == S("checksum") then Ok(CHECKSUM)
    else Err(ValueError)
  }

  // ---------- Configurations ----------
  // A field that the normaliser copies without conversion holds whatever value it was given.

  datatype AirflowConfig = AirflowConfig(
    retries: int, retryDelayMinutes: int, executionTimeoutMinutes: int, slaMinutes: int,
    tags: seq<Value>, pool: string)

  datatype SensorConfig = SensorConfig(query: string, timeoutMinutes: int, pokeIntervalSeconds: int)

  datatype ExtractionConfig = ExtractionConfig(
    objectName: Value, loadStrategy: LoadStrategy, watermarkColumn: Value, watermarkType: Option<WatermarkType>,
    watermarkInitialValue: Value, pageSize: int, partitionColumn: Value, compression: Value, encoding: Value,
    extractionQuery: Value, credentialRef: Value, sensor: Option<SensorConfig>)

  datatype ComputeConfig = ComputeConfig(
    engine: ComputeEngine, numWorkers: int, machineType: string, stagingBucket: string, select: string,
    sourceType: string, credentialRef: string, driver: string, endpoint: string, recordsPath: string,
    format: string, multiline: bool)

  datatype DestinationObjectConfig = DestinationObjectConfig(
    objectName: Value, createIfNotExists: Value, schemaFields: Value)

  datatype QualityRule = QualityRule(type_: QualityRuleType, column: Value, value: Value)

  /** The five sections of a pipeline that both sides know. */
  datatype Pipeline = Pipeline(
    sources: seq<ExtractionConfig>, destinations: seq<DestinationObjectConfig>, compute: ComputeConfig,
    quality: seq<QualityRule>, airflow: AirflowConfig)

  datatype Defaults = Defaults(
    retries: int, retryDelayMinutes: int, executionTimeoutMinutes: int, slaMinutes: int, pool: string,
    pageSize: int, compression: string, encoding: string, loadStrategy: string,
    defaultEngine: string, numWorkers: int, machineType: string)

  // ---------- The generator ----------

  /** An optional field: no entry at all for a falsy value. */
  function With(d: Dict, key: Key, v: Value): Dict {
    if Truthy(v) then d[key := v] else d
  }

  function GivenOr(v: Value, x: Value): Value {
    if Truthy(v) then v else x
  }

  lemma WithGet(d: Dict, key: Key, v: Value, k: Key, x: Value)
    ensures Get(With(d, key, v), k, x) == if k == key then GivenOr(v, Get(d, k, x)) else Get(d, k, x)
  {
  }

  function ObjectEntries(objects: seq<Dict>): seq<Value> {
    seq(|objects|, i requires 0 <= i < |objects| => D(objects[i]))
  }

  function SensorValue(sensor: Option<SensorConfig>): Value {
    match sensor
    case None => Null
    case Some(s) =>
      D(map[Key.QUERY := S(s.query), Key.TIMEOUT_MINUTES := I(s.timeoutMinutes),
        Key.POKE_INTERVAL_SECONDS := I(s.pokeIntervalSeconds)])
  }

  lemma SensorIsGiven(sensor: Option<SensorConfig>)
    ensures Truthy(SensorValue(sensor)) <==> sensor.Some?
  {
    if sensor.Some? {
      assert Key.QUERY in SensorValue(sensor).entries;
    }
  }

  lemma TypeTextIsGiven(t: Option<WatermarkType>)
    ensures Truthy(WatermarkTypeText(t)) <==> t.Some?
  {
  }

  function WatermarkTypeText(t: Option<WatermarkType>): Value {
    if t.Some? then S(WatermarkTypeValue(t.value)) else Null
  }

  function RequiredEntries(e: ExtractionConfig): Dict {
    map[Key.OBJECT_NAME := e.objectName, Key.LOAD_STRATEGY := S(LoadStrategyValue(e.loadStrategy)),
    Key.PAGE_SIZE := I(e.pageSize), Key.COMPRESSION := e.compression, Key.ENCODING := e.encoding]
  }

  function ExtractionDict(e: ExtractionConfig): Dict {
    var d := With(RequiredEntries(e), Key.CREDENTIAL_REF, e.credentialRef);
    var d := With(d, Key.WATERMARK_COLUMN, e.watermarkColumn);
    var d := With(d, Key.WATERMARK_TYPE, WatermarkTypeText(e.watermarkType));
    var d := With(d, Key.WATERMARK_INITIAL_VALUE, e.watermarkInitialValue);
    var d := With(d, Key.PARTITION_COLUMN, e.partitionColumn);
    var d := With(d, Key.EXTRACTION_QUERY, e.extractionQuery);
    With(d, Key.SENSOR, SensorValue(e.sensor))
  }

  function SourceObjects(sources: seq<ExtractionConfig>): seq<Dict> {
    seq(|sources|, i requires 0 <= i < |sources| => ExtractionDict(sources[i]))
  }


  method SourceDict(assetName: string, sources: seq<ExtractionConfig>) returns (d: Dict)
    ensures d == map[Key.ASSET_NAME := S(assetName), Key.OBJECTS := L(ObjectEntries(SourceObjects(sources)))]
    ensures d[Key.OBJECTS].L? && |d[Key.OBJECTS].items| == |sources|
    ensures forall i :: 0 <= i < |sources| ==> d[Key.OBJECTS].items[i] == D(ExtractionDict(sources[i]))
  {
    var objects: seq<Dict> := [];
    for k := 0 to |sources|
      invariant objects == SourceObjects(sources[..k])
    {
      var ext := sources[k];
      var obj := map[
        Key.OBJECT_NAME := ext.objectName,
        Key.LOAD_STRATEGY := S(LoadStrategyValue(ext.loadStrategy)),
        Key.PAGE_SIZE := I(ext.pageSize),
        Key.COMPRESSION := ext.compression,
        Key.ENCODING := ext.encoding];
      if Truthy(ext.credentialRef) {
        obj := obj[Key.CREDENTIAL_REF := ext.credentialRef];
      }
      if Truthy(ext.watermarkColumn) {
        obj := obj[Key.WATERMARK_COLUMN := ext.watermarkColumn];
      }
      if ext.watermarkType.Some? {
        obj := obj[Key.WATERMARK_TYPE := S(WatermarkTypeValue(ext.watermarkType.value))];
      }
      if Truthy(ext.watermarkInitialValue) {
        obj := obj[Key.WATERMARK_INITIAL_VALUE := ext.watermarkInitialValue];
      }
      if Truthy(ext.partitionColumn) {
        obj := obj[Key.PARTITION_COLUMN := ext.partitionColumn];
      }
      if Truthy(ext.extractionQuery) {
        obj := obj[Key.EXTRACTION_QUERY := ext.extractionQuery];
      }
      if ext.sensor.Some? {
        var s := ext.sensor.value;
        obj := obj[Key.SENSOR := D(map[Key.QUERY := S(s.query), Key.TIMEOUT_MINUTES := I(s.timeoutMinutes),
        Key.POKE_INTERVAL_SECONDS := I(s.pokeIntervalSeconds)])];
      }
      SensorIsGiven(ext.sensor);
      TypeTextIsGiven(ext.watermarkType);
      objects := objects + [obj];
    }
    assert sources[..|sources|] == sources;
    d := map[Key.ASSET_NAME := S(assetName), Key.OBJECTS := L(ObjectEntries(objects))];
  }

  function DestinationObjects(destinations: seq<DestinationObjectConfig>): seq<Dict> {
    seq(|destinations|, i requires 0 <= i < |destinations| =>
      map[Key.OBJECT_NAME := destinations[i].objectName, Key.CREATE_IF_NOT_EXISTS := destinations[i].createIfNotExists])
  }

  function EngineEntries(c: ComputeConfig): Dict {
    map[Key.NUM_WORKERS := I(c.numWorkers), Key.MACHINE_TYPE := S(c.machineType)]
  }

  function EngineConfig(c: ComputeConfig): Dict {
    var d := With(EngineEntries(c), Key.SOURCE_TYPE, S(c.sourceType));
    var d := With(d, Key.CREDENTIAL_REF, S(c.credentialRef));
    var d := With(d, Key.DRIVER, S(c.driver));
    var d := With(d, Key.ENDPOINT, S(c.endpoint));
    var d := With(d, Key.RECORDS_PATH, S(c.recordsPath));
    var d := With(d, Key.FORMAT, S(c.format));
    With(d, Key.MULTILINE, B(c.multiline))
  }

  method ToEngineConfig(c: ComputeConfig) returns (cfg: Dict)
    ensures cfg == EngineConfig(c)
  {
    cfg := map[Key.NUM_WORKERS := I(c.numWorkers), Key.MACHINE_TYPE := S(c.machineType)];
    if c.sourceType != "" {
      cfg := cfg[Key.SOURCE_TYPE := S(c.sourceType)];
    }
    if c.credentialRef != "" {
      cfg := cfg[Key.CREDENTIAL_REF := S(c.credentialRef)];
    }
    if c.driver != "" {
      cfg := cfg[Key.DRIVER := S(c.driver)];
    }
    if c.endpoint != "" {
      cfg := cfg[Key.ENDPOINT := S(c.endpoint)];
    }
    if c.recordsPath != "" {
      cfg := cfg[Key.RECORDS_PATH := S(c.recordsPath)];
    }
    if c.format != "" {
      cfg := cfg[Key.FORMAT := S(c.format)];
    }
    if c.multiline {
      cfg := cfg[Key.MULTILINE := B(c.multiline)];
    }
  }

  function ComputeSection(c: ComputeConfig): Dict {
    With(SectionEntries(c), Key.SELECT, S(c.select))
  }

  function SectionEntries(c: ComputeConfig): Dict {
    map[Key.ENGINE := S(ComputeEngineValue(c.engine)), Key.STAGING_BUCKET := S(c.stagingBucket),
    Key.CONFIG := D(EngineConfig(c))]
  }

  method ComputeDict(c: ComputeConfig) returns (d: Dict)
    ensures d == ComputeSection(c)
  {
    var cfg := ToEngineConfig(c);
    d := map[Key.ENGINE := S(ComputeEngineValue(c.engine)), Key.STAGING_BUCKET := S(c.stagingBucket), Key.CONFIG := D(cfg)];
    if c.select != "" {
      d := d[Key.SELECT := S(c.select)];
    }
  }

  function RuleDict(r: QualityRule): Dict {
    var d := With(map[Key.TYPE := S(QualityRuleTypeValue(r.type_))], Key.COLUMN, r.column);
    if r.value == Null then d else d[Key.VALUE := r.value]
  }

  function Metrics(rules: seq<QualityRule>): seq<Dict> {
    seq(|rules|, i requires 0 <= i < |rules| => RuleDict(rules[i]))
  }

  method QualityDict(rules: seq<QualityRule>) returns (d: Dict)
    ensures d == map[Key.METRICS := L(ObjectEntries(Metrics(rules)))]
    ensures d[Key.METRICS].L? && |d[Key.METRICS].items| == |rules|
    ensures forall i :: 0 <= i < |rules| ==> d[Key.METRICS].items[i] == D(RuleDict(rules[i]))
  {
    var metrics: seq<Dict> := [];
    for k := 0 to |rules|
      invariant metrics == Metrics(rules[..k])
    {
      var r := rules[k];
      var rule := map[Key.TYPE := S(QualityRuleTypeValue(r.type_))];
      if Truthy(r.column) {
        rule := rule[Key.COLUMN := r.column];
      }
      if r.value != Null {
        rule := rule[Key.VALUE := r.value];
      }
      metrics := metrics + [rule];
    }
    assert rules[..|rules|] == rules;
    d := map[Key.METRICS := L(ObjectEntries(metrics))];
  }

  function AirflowDict(a: AirflowConfig): Dict {
    map[Key.RETRIES := I(a.retries), Key.RETRY_DELAY_MINUTES := I(a.retryDelayMinutes),
    Key.EXECUTION_TIMEOUT_MINUTES := I(a.executionTimeoutMinutes), Key.SLA_MINUTES := I(a.slaMinutes),
    Key.TAGS := L(a.tags), Key.POOL := S(a.pool)]
  }

  // ---------- The normaliser ----------

  function NormalizeAirflow(py: Python, d: Defaults, raw: Dict): Result<AirflowConfig, PythonError> {
    var retries :- AsInt(py, Get(raw, Key.RETRIES, I(d.retries)));
    var retryDelay :- AsInt(py, Get(raw, Key.RETRY_DELAY_MINUTES, I(d.retryDelayMinutes)));
    var timeout :- AsInt(py, Get(raw, Key.EXECUTION_TIMEOUT_MINUTES, I(d.executionTimeoutMinutes)));
    var sla :- AsInt(py, Get(raw, Key.SLA_MINUTES, I(d.slaMinutes)));
    var tags :- AsTuple(py, Get(raw, Key.TAGS, L([])));
    Ok(AirflowConfig(retries, retryDelay, timeout, sla, tags, AsStr(py, Get(raw, Key.POOL, S(d.pool)))))
  }

  function NormalizeSource(py: Python, d: Defaults, item: Dict): Result<ExtractionConfig, PythonError> {
    if Key.OBJECT_NAME !in item then Err(KeyError)
    else
      var loadStrategy :- LoadStrategyOf(Get(item, Key.LOAD_STRATEGY, S(d.loadStrategy)));
      var watermarkType :- OptionalWatermarkType(Get(item, Key.WATERMARK_TYPE, Null));
      var pageSize :- AsInt(py, Get(item, Key.PAGE_SIZE, I(d.pageSize)));
      Ok(ExtractionConfig(
           item[Key.OBJECT_NAME], loadStrategy,
           Get(item, Key.WATERMARK_COLUMN, Null), watermarkType, Get(item, Key.WATERMARK_INITIAL_VALUE, Null),
           pageSize, Get(item, Key.PARTITION_COLUMN, Null),
           Get(item, Key.COMPRESSION, S(d.compression)), Get(item, Key.ENCODING, S(d.encoding)),
           Get(item, Key.EXTRACTION_QUERY, Null), Get(item, Key.CREDENTIAL_REF, Null), None))
  }

  function OptionalWatermarkType(v: Value): Result<Option<WatermarkType>, PythonError> {
    if !Truthy(v) then Ok(None)
    else
      var t :- WatermarkTypeOf(v);
      Ok(Some(t))
  }

  function NormalizeExtraction(py: Python, d: Defaults, items: seq<Dict>): Result<seq<ExtractionConfig>, PythonError> {
    if items == [] then Ok([])
    else
      var first :- NormalizeSource(py, d, items[0]);
      var rest :- NormalizeExtraction(py, d, items[1..]);
      Ok([first] + rest)
  }

  /** The entries of a nested "config" dictionary, overridden by those beside it. */
  function Flattened(raw: Dict): Dict {
    if Key.CONFIG in raw && raw[Key.CONFIG].D? then raw[Key.CONFIG].entries + raw else raw
  }

  function NormalizeCompute(py: Python, d: Defaults, raw: Dict): Result<ComputeConfig, PythonError> {
    var cfg := Flattened(raw);
    var engine :- ComputeEngineOf(Get(cfg, Key.ENGINE, S(d.defaultEngine)));
    var numWorkers :- AsInt(py, Get(cfg, Key.NUM_WORKERS, I(d.numWorkers)));
    Ok(ComputeConfig(
         engine, numWorkers, AsStr(py, Get(cfg, Key.MACHINE_TYPE, S(d.machineType))),
         AsStr(py, Get(cfg, Key.STAGING_BUCKET, S(""))), AsStr(py, Get(cfg, Key.SELECT, S(""))),
         AsStr(py, Get(cfg, Key.SOURCE_TYPE, S(""))), AsStr(py, Get(cfg, Key.CREDENTIAL_REF, S(""))),
         AsStr(py, Get(cfg, Key.DRIVER, S(""))), AsStr(py, Get(cfg, Key.ENDPOINT, S(""))),
         AsStr(py, Get(cfg, Key.RECORDS_PATH, S(""))), AsStr(py, Get(cfg, Key.FORMAT, S(""))),
         Truthy(Get(cfg, Key.MULTILINE, B(false)))))
  }

  function NormalizeDestinationObjects(items: seq<Dict>): seq<DestinationObjectConfig> {
    if items == [] then []
    else
      (if Truthy(Get(items[0], Key.OBJECT_NAME, Null))
       then [DestinationObjectConfig(Get(items[0], Key.OBJECT_NAME, Null),
                                     Get(items[0], Key.CREATE_IF_NOT_EXISTS, B(true)),
                                     Get(items[0], Key.SCHEMA_FIELDS, Null))]
       else [])
      + NormalizeDestinationObjects(items[1..])
  }

  function NormalizeRule(item: Dict): Result<QualityRule, PythonError> {
    if Key.TYPE !in item then Err(KeyError)
    else
      var type_ :- QualityRuleTypeOf(item[Key.TYPE]);
      Ok(QualityRule(type_, Get(item, Key.COLUMN, Null), Get(item, Key.VALUE, Null)))
  }

  function NormalizeQualityRules(items: seq<Dict>): Result<seq<QualityRule>, PythonError> {
    if items == [] then Ok([])
    else
      var first :- NormalizeRule(items[0]);
      var rest :- NormalizeQualityRules(items[1..]);
      Ok([first] + rest)
  }

  // ---------- Compute and airflow come back exactly ----------

  lemma EngineComesBack(e: ComputeEngine)
    ensures ComputeEngineOf(S(ComputeEngineValue(e))) == Ok(e)
  {
  }

  lemma EngineEntriesGet(c: ComputeConfig, k: Key, x: Value)
    ensures Get(EngineEntries(c), k, x)
         == if k == Key.NUM_WORKERS then I(c.numWorkers) else if k == Key.MACHINE_TYPE then S(c.machineType) else x
  {
  }

  lemma SectionEntriesGet(c: ComputeConfig, k: Key, x: Value)
    ensures Get(SectionEntries(c), k, x)
         == if k == Key.ENGINE then S(ComputeEngineValue(c.engine))
            else if k == Key.STAGING_BUCKET then S(c.stagingBucket)
            else if k == Key.CONFIG then D(EngineConfig(c))
            else x
  {
    hide ComputeEngineValue, EngineConfig;
  }

  /** What an engine configuration holds under a key, or x if nothing. */
  function EngineValue(c: ComputeConfig, k: Key, x: Value): Value {
    if k == Key.NUM_WORKERS then I(c.numWorkers)
    else if k == Key.MACHINE_TYPE then S(c.machineType)
    else if k == Key.SOURCE_TYPE then GivenOr(S(c.sourceType), x)
    else if k == Key.CREDENTIAL_REF then GivenOr(S(c.credentialRef), x)
    else if k == Key.DRIVER then GivenOr(S(c.driver), x)
    else if k == Key.ENDPOINT then GivenOr(S(c.endpoint), x)
    else if k == Key.RECORDS_PATH then GivenOr(S(c.recordsPath), x)
    else if k == Key.FORMAT then GivenOr(S(c.format), x)
    else if k == Key.MULTILINE then GivenOr(B(c.multiline), x)
    else x
  }

  lemma EngineConfigGet(c: ComputeConfig, k: Key, x: Value)
    ensures Get(EngineConfig(c), k, x) == EngineValue(c, k, x)
  {
    hide Get, With, EngineEntries, Truthy, GivenOr;
    EngineEntriesGet(c, k, x);
    var d0 := EngineEntries(c);
    WithGet(d0, Key.SOURCE_TYPE, S(c.sourceType), k, x);
    var d1 := With(d0, Key.SOURCE_TYPE, S(c.sourceType));
    WithGet(d1, Key.CREDENTIAL_REF, S(c.credentialRef), k, x);
    var d2 := With(d1, Key.CREDENTIAL_REF, S(c.credentialRef));
    WithGet(d2, Key.DRIVER, S(c.driver), k, x);
    var d3 := With(d2, Key.DRIVER, S(c.driver));
    WithGet(d3, Key.ENDPOINT, S(c.endpoint), k, x);
    var d4 := With(d3, Key.ENDPOINT, S(c.endpoint));
    WithGet(d4, Key.RECORDS_PATH, S(c.recordsPath), k, x);
    var d5 := With(d4, Key.RECORDS_PATH, S(c.recordsPath));
    WithGet(d5, Key.FORMAT, S(c.format), k, x);
    var d6 := With(d5, Key.FORMAT, S(c.format));
    WithGet(d6, Key.MULTILINE, B(c.multiline), k, x);
  }

  lemma SectionGet(c: ComputeConfig, k: Key, x: Value)
    ensures Get(ComputeSection(c), k, x)
         == if k == Key.SELECT then GivenOr(S(c.select), x) else Get(SectionEntries(c), k, x)
  {
    hide Get, With, SectionEntries, GivenOr;
    WithGet(SectionEntries(c), Key.SELECT, S(c.select), k, x);
    SectionEntriesGet(c, k, x);
  }

  function SectionValue(c: ComputeConfig, k: Key, x: Value): Value {
    if k == Key.ENGINE then S(ComputeEngineValue(c.engine))
    else if k == Key.STAGING_BUCKET then S(c.stagingBucket)
    else if k == Key.SELECT then GivenOr(S(c.select), x)
    else EngineValue(c, k, x)
  }

  /** The two levels of the section name different keys, so merging them loses none. */
  lemma FlattenedGet(c: ComputeConfig, k: Key, x: Value)
    requires k != Key.CONFIG
    ensures Get(Flattened(ComputeSection(c)), k, x) == SectionValue(c, k, x)
  {
    hide Get, EngineConfig, ComputeSection, SectionEntries, GivenOr, ComputeEngineValue;
    SectionGet(c, Key.CONFIG, Null);
    SectionEntriesGet(c, Key.CONFIG, Null);
    GetShowsKey(ComputeSection(c), Key.CONFIG, D(EngineConfig(c)));
    SumGet(EngineConfig(c), ComputeSection(c), k, x);
    SectionGet(c, k, Get(EngineConfig(c), k, x));
    SectionEntriesGet(c, k, Get(EngineConfig(c), k, x));
    EngineConfigGet(c, k, x);
  }

  lemma SumGet(a: Dict, b: Dict, k: Key, x: Value)
    ensures Get(a + b, k, x) == Get(b, k, Get(a, k, x))
  {
  }

  lemma GetShowsKey(d: Dict, k: Key, v: Value)
    requires Get(d, k, Null) == v && v != Null
    ensures k in d && d[k] == v
  {
  }

  function TextOf(c: ComputeConfig, k: Key): string {
    if k == Key.STAGING_BUCKET then c.stagingBucket
    else if k == Key.SELECT then c.select
    else if k == Key.SOURCE_TYPE then c.sourceType
    else if k == Key.CREDENTIAL_REF then c.credentialRef
    else if k == Key.DRIVER then c.driver
    else if k == Key.ENDPOINT then c.endpoint
    else if k == Key.RECORDS_PATH then c.recordsPath
    else c.format
  }

  predicate IsTextKey(k: Key) {
    k.STAGING_BUCKET? || k.SELECT? || k.SOURCE_TYPE? || k.CREDENTIAL_REF? || k.DRIVER? || k.ENDPOINT?
    || k.RECORDS_PATH? || k.FORMAT?
  }

  lemma GivenText(s: string)
    ensures GivenOr(S(s), S("")) == S(s)
  {
  }

  /** An empty text is left out of the dictionary, and read back as the empty text. */
  lemma TextComesBack(c: ComputeConfig, k: Key)
    requires IsTextKey(k)
    ensures Get(Flattened(ComputeSection(c)), k, S("")) == S(TextOf(c, k))
  {
    hide Get, Flattened, ComputeSection, GivenOr;
    FlattenedGet(c, k, S(""));
    GivenText(TextOf(c, k));
  }

  lemma FlagComesBack(c: ComputeConfig)
    ensures Truthy(Get(Flattened(ComputeSection(c)), Key.MULTILINE, B(false))) == c.multiline
  {
    hide Get, Flattened, ComputeSection;
    FlattenedGet(c, Key.MULTILINE, B(false));
  }

  /** Whatever the defaults are, no field of a generated compute section takes one. */
  lemma ComputeComesBack(py: Python, d: Defaults, c: ComputeConfig)
    ensures NormalizeCompute(py, d, ComputeSection(c)) == Ok(c)
  {
    hide Get, Flattened, ComputeSection, ComputeEngineOf, ComputeEngineValue, GivenOr, Truthy, EngineValue;
    EngineComesBack(c.engine);
    FlattenedGet(c, Key.ENGINE, S(d.defaultEngine));
    SizesComeBack(c, I(d.numWorkers), S(d.machineType));
    TextComesBack(c, Key.STAGING_BUCKET);
    TextComesBack(c, Key.SELECT);
    TextComesBack(c, Key.SOURCE_TYPE);
    TextComesBack(c, Key.CREDENTIAL_REF);
    TextComesBack(c, Key.DRIVER);
    TextComesBack(c, Key.ENDPOINT);
    TextComesBack(c, Key.RECORDS_PATH);
    TextComesBack(c, Key.FORMAT);
    FlagComesBack(c);
  }

  lemma SizesComeBack(c: ComputeConfig, x: Value, y: Value)
    ensures Get(Flattened(ComputeSection(c)), Key.NUM_WORKERS, x) == I(c.numWorkers)
    ensures Get(Flattened(ComputeSection(c)), Key.MACHINE_TYPE, y) == S(c.machineType)
  {
    hide Get, Flattened, ComputeSection;
    FlattenedGet(c, Key.NUM_WORKERS, x);
    FlattenedGet(c, Key.MACHINE_TYPE, y);
  }

  lemma AirflowComesBack(py: Python, d: Defaults, a: AirflowConfig)
    ensures NormalizeAirflow(py, d, AirflowDict(a)) == Ok(a)
  {
    var raw := AirflowDict(a);
    assert raw[Key.TAGS] == L(a.tags) && raw[Key.POOL] == S(a.pool);
  }

  // ---------- Extraction comes back without its sensor and with falsy values read as absent ----------

  function OrNone(v: Value): Value {
    GivenOr(v, Null)
  }

  function CanonicalSource(e: ExtractionConfig): ExtractionConfig {
    e.(watermarkColumn := OrNone(e.watermarkColumn), watermarkInitialValue := OrNone(e.watermarkInitialValue),
    partitionColumn := OrNone(e.partitionColumn), extractionQuery := OrNone(e.extractionQuery),
    credentialRef := OrNone(e.credentialRef), sensor := None)
  }

  function CanonicalSources(sources: seq<ExtractionConfig>): seq<ExtractionConfig> {
    seq(|sources|, i requires 0 <= i < |sources| => CanonicalSource(sources[i]))
  }

  predicate PlainOption(v: Value) {
    v == Null || Truthy(v)
  }

  predicate PlainSource(e: ExtractionConfig) {
    && e.sensor.None?
    && PlainOption(e.watermarkColumn) && PlainOption(e.watermarkInitialValue) && PlainOption(e.partitionColumn)
    && PlainOption(e.extractionQuery) && PlainOption(e.credentialRef)
  }

  lemma LoadStrategyComesBack(l: LoadStrategy)
    ensures LoadStrategyOf(S(LoadStrategyValue(l))) == Ok(l)
  {
  }

  lemma WatermarkTypeComesBack(t: Option<WatermarkType>)
    ensures OptionalWatermarkType(GivenOr(WatermarkTypeText(t), Null)) == Ok(t)
  {
  }

  lemma RequiredGet(e: ExtractionConfig, k: Key, x: Value)
    ensures Get(RequiredEntries(e), k, x)
         == if k == Key.OBJECT_NAME then e.objectName
            else if k == Key.LOAD_STRATEGY then S(LoadStrategyValue(e.loadStrategy))
            else if k == Key.PAGE_SIZE then I(e.pageSize)
            else if k == Key.COMPRESSION then e.compression
            else if k == Key.ENCODING then e.encoding
            else x
  {
    hide LoadStrategyValue;
  }

  /** What a source object's dictionary holds under a key, or x if nothing. */
  function ExtractionValue(e: ExtractionConfig, k: Key, x: Value): Value {
    if k == Key.OBJECT_NAME then e.objectName
    else if k == Key.LOAD_STRATEGY then S(LoadStrategyValue(e.loadStrategy))
    else if k == Key.PAGE_SIZE then I(e.pageSize)
    else if k == Key.COMPRESSION then e.compression
    else if k == Key.ENCODING then e.encoding
    else if k == Key.CREDENTIAL_REF then GivenOr(e.credentialRef, x)
    else if k == Key.WATERMARK_COLUMN then GivenOr(e.watermarkColumn, x)
    else if k == Key.WATERMARK_TYPE then GivenOr(WatermarkTypeText(e.watermarkType), x)
    else if k == Key.WATERMARK_INITIAL_VALUE then GivenOr(e.watermarkInitialValue, x)
    else if k == Key.PARTITION_COLUMN then GivenOr(e.partitionColumn, x)
    else if k == Key.EXTRACTION_QUERY then GivenOr(e.extractionQuery, x)
    else if k == Key.SENSOR then GivenOr(SensorValue(e.sensor), x)
    else x
  }

  lemma ExtractionGet(e: ExtractionConfig, k: Key, x: Value)
    ensures Get(ExtractionDict(e), k, x) == ExtractionValue(e, k, x)
  {
    hide Get, With, RequiredEntries, LoadStrategyValue, WatermarkTypeText, SensorValue, Truthy, GivenOr;
    RequiredGet(e, k, x);
    var d0 := RequiredEntries(e);
    WithGet(d0, Key.CREDENTIAL_REF, e.credentialRef, k, x);
    var d1 := With(d0, Key.CREDENTIAL_REF, e.credentialRef);
    WithGet(d1, Key.WATERMARK_COLUMN, e.watermarkColumn, k, x);
    var d2 := With(d1, Key.WATERMARK_COLUMN, e.watermarkColumn);
    WithGet(d2, Key.WATERMARK_TYPE, WatermarkTypeText(e.watermarkType), k, x);
    var d3 := With(d2, Key.WATERMARK_TYPE, WatermarkTypeText(e.watermarkType));
    WithGet(d3, Key.WATERMARK_INITIAL_VALUE, e.watermarkInitialValue, k, x);
    var d4 := With(d3, Key.WATERMARK_INITIAL_VALUE, e.watermarkInitialValue);
    WithGet(d4, Key.PARTITION_COLUMN, e.partitionColumn, k, x);
    var d5 := With(d4, Key.PARTITION_COLUMN, e.partitionColumn);
    WithGet(d5, Key.EXTRACTION_QUERY, e.extractionQuery, k, x);
    var d6 := With(d5, Key.EXTRACTION_QUERY, e.extractionQuery);
    WithGet(d6, Key.SENSOR, SensorValue(e.sensor), k, x);
  }

  lemma ObjectNameIsThere(e: ExtractionConfig)
    ensures Key.OBJECT_NAME in ExtractionDict(e) && ExtractionDict(e)[Key.OBJECT_NAME] == e.objectName
  {
    hide ExtractionDict, LoadStrategyValue, WatermarkTypeText, SensorValue, Truthy, GivenOr;
    ExtractionGet(e, Key.OBJECT_NAME, B(true));
    ExtractionGet(e, Key.OBJECT_NAME, B(false));
  }

  lemma OptionsComeBack(e: ExtractionConfig, item: Dict)
    requires item == ExtractionDict(e)
    ensures Get(item, Key.CREDENTIAL_REF, Null) == OrNone(e.credentialRef)
    ensures Get(item, Key.WATERMARK_COLUMN, Null) == OrNone(e.watermarkColumn)
    ensures Get(item, Key.WATERMARK_INITIAL_VALUE, Null) == OrNone(e.watermarkInitialValue)
    ensures Get(item, Key.PARTITION_COLUMN, Null) == OrNone(e.partitionColumn)
    ensures Get(item, Key.EXTRACTION_QUERY, Null) == OrNone(e.extractionQuery)
    ensures OptionalWatermarkType(Get(item, Key.WATERMARK_TYPE, Null)) == Ok(e.watermarkType)
  {
    hide Get, GivenOr, ExtractionDict, WatermarkTypeText, OptionalWatermarkType;
    ExtractionGet(e, Key.CREDENTIAL_REF, Null);
    ExtractionGet(e, Key.WATERMARK_COLUMN, Null);
    ExtractionGet(e, Key.WATERMARK_INITIAL_VALUE, Null);
    ExtractionGet(e, Key.PARTITION_COLUMN, Null);
    ExtractionGet(e, Key.EXTRACTION_QUERY, Null);
    ExtractionGet(e, Key.WATERMARK_TYPE, Null);
    WatermarkTypeComesBack(e.watermarkType);
  }

  lemma SettingsComeBack(d: Defaults, e: ExtractionConfig, item: Dict)
    requires item == ExtractionDict(e)
    ensures LoadStrategyOf(Get(item, Key.LOAD_STRATEGY, S(d.loadStrategy))) == Ok(e.loadStrategy)
    ensures Get(item, Key.PAGE_SIZE, I(d.pageSize)) == I(e.pageSize)
    ensures Get(item, Key.COMPRESSION, S(d.compression)) == e.compression
    ensures Get(item, Key.ENCODING, S(d.encoding)) == e.encoding
  {
    hide Get, GivenOr, ExtractionDict, LoadStrategyOf, LoadStrategyValue;
    ExtractionGet(e, Key.LOAD_STRATEGY, S(d.loadStrategy));
    ExtractionGet(e, Key.PAGE_SIZE, I(d.pageSize));
    ExtractionGet(e, Key.COMPRESSION, S(d.compression));
    ExtractionGet(e, Key.ENCODING, S(d.encoding));
    LoadStrategyComesBack(e.loadStrategy);
  }

  lemma SourceComesBack(py: Python, d: Defaults, e: ExtractionConfig)
    ensures NormalizeSource(py, d, ExtractionDict(e)) == Ok(CanonicalSource(e))
  {
    hide Get, OrNone, ExtractionDict, LoadStrategyOf, OptionalWatermarkType;
    ObjectNameIsThere(e);
    SettingsComeBack(d, e, ExtractionDict(e));
    OptionsComeBack(e, ExtractionDict(e));
  }

  lemma {:induction false} ExtractionComesBack(py: Python, d: Defaults, sources: seq<ExtractionConfig>)
    ensures NormalizeExtraction(py, d, SourceObjects(sources)) == Ok(CanonicalSources(sources))
  {
    hide ExtractionDict, CanonicalSource, NormalizeSource;
    if sources != [] {
      SourceComesBack(py, d, sources[0]);
      ExtractionComesBack(py, d, sources[1..]);
      assert SourceObjects(sources)[1..] == SourceObjects(sources[1..]);
      assert CanonicalSources(sources) == [CanonicalSource(sources[0])] + CanonicalSources(sources[1..]);
    } else {
      assert SourceObjects(sources) == [] && CanonicalSources(sources) == [];
    }
  }

  lemma CanonicalSourcesIff(sources: seq<ExtractionConfig>)
    ensures CanonicalSources(sources) == sources <==> forall e :: e in sources ==> PlainSource(e)
  {
    hide Truthy;
    if forall e :: e in sources ==> PlainSource(e) {
      forall i | 0 <= i < |sources|
        ensures CanonicalSources(sources)[i] == sources[i]
      {
        assert sources[i] in sources;
      }
    }
    if CanonicalSources(sources) == sources {
      forall e | e in sources
        ensures PlainSource(e)
      {
        var i :| 0 <= i < |sources| && sources[i] == e;
        assert CanonicalSources(sources)[i] == CanonicalSource(e);
      }
    }
  }

  lemma WithOrNone(d: Dict, k: Key, v: Value)
    ensures With(d, k, OrNone(v)) == With(d, k, v)
  {
  }

  lemma WithoutSensor(e: ExtractionConfig)
    ensures ExtractionDict(CanonicalSource(e)) == ExtractionDict(e.(sensor := None))
  {
    hide With, OrNone, RequiredEntries, WatermarkTypeText, SensorValue;
    var d0 := RequiredEntries(e);
    assert RequiredEntries(CanonicalSource(e)) == RequiredEntries(e.(sensor := None)) == d0 by {
      SameRequired(e);
    }
    WithOrNone(d0, Key.CREDENTIAL_REF, e.credentialRef);
    var d1 := With(d0, Key.CREDENTIAL_REF, e.credentialRef);
    WithOrNone(d1, Key.WATERMARK_COLUMN, e.watermarkColumn);
    var d2 := With(d1, Key.WATERMARK_COLUMN, e.watermarkColumn);
    var d3 := With(d2, Key.WATERMARK_TYPE, WatermarkTypeText(e.watermarkType));
    WithOrNone(d3, Key.WATERMARK_INITIAL_VALUE, e.watermarkInitialValue);
    var d4 := With(d3, Key.WATERMARK_INITIAL_VALUE, e.watermarkInitialValue);
    WithOrNone(d4, Key.PARTITION_COLUMN, e.partitionColumn);
    var d5 := With(d4, Key.PARTITION_COLUMN, e.partitionColumn);
    WithOrNone(d5, Key.EXTRACTION_QUERY, e.extractionQuery);
  }

  lemma SameRequired(e: ExtractionConfig)
    ensures RequiredEntries(CanonicalSource(e)) == RequiredEntries(e)
    ensures RequiredEntries(e.(sensor := None)) == RequiredEntries(e)
  {
  }

  /** What was read back generates the dictionary it came from, less a sensor that had been in it. */
  lemma RegeneratedSourceIff(e: ExtractionConfig)
    ensures ExtractionDict(CanonicalSource(e)) == ExtractionDict(e.(sensor := None))
    ensures ExtractionDict(CanonicalSource(e)) == ExtractionDict(e) <==> e.sensor.None?
  {
    hide ExtractionDict, Get, OrNone, SensorValue;
    WithoutSensor(e);
    ExtractionGet(e, Key.SENSOR, Null);
    ExtractionGet(CanonicalSource(e), Key.SENSOR, Null);
    SensorIsGiven(e.sensor);
    SensorIsGiven(None);
  }

  // ---------- Quality rules ----------

  function CanonicalRules(rules: seq<QualityRule>): seq<QualityRule> {
    seq(|rules|, i requires 0 <= i < |rules| => rules[i].(column := OrNone(rules[i].column)))
  }

  lemma RuleComesBack(r: QualityRule)
    ensures NormalizeRule(RuleDict(r)) == Ok(r.(column := OrNone(r.column)))
  {
    var item := RuleDict(r);
    assert item[Key.TYPE] == S(QualityRuleTypeValue(r.type_));
    assert Get(item, Key.COLUMN, Null) == OrNone(r.column);
    assert Get(item, Key.VALUE, Null) == r.value;
  }

  /** A value of 0 survives, which an optional field elsewhere would not. */
  lemma {:induction false} QualityComesBack(rules: seq<QualityRule>)
    ensures NormalizeQualityRules(Metrics(rules)) == Ok(CanonicalRules(rules))
  {
    hide RuleDict, NormalizeRule, OrNone;
    if rules != [] {
      RuleComesBack(rules[0]);
      QualityComesBack(rules[1..]);
      assert Metrics(rules)[1..] == Metrics(rules[1..]);
      assert CanonicalRules(rules) == [rules[0].(column := OrNone(rules[0].column))] + CanonicalRules(rules[1..]);
    } else {
      assert Metrics(rules) == [] && CanonicalRules(rules) == [];
    }
  }

  lemma CanonicalRulesIff(rules: seq<QualityRule>)
    ensures CanonicalRules(rules) == rules <==> forall r :: r in rules ==> PlainOption(r.column)
  {
    hide Truthy;
    if forall r :: r in rules ==> PlainOption(r.column) {
      forall i | 0 <= i < |rules|
        ensures CanonicalRules(rules)[i] == rules[i]
      {
        assert rules[i] in rules;
      }
    }
    if CanonicalRules(rules) == rules {
      forall r | r in rules
        ensures PlainOption(r.column)
      {
        var i :| 0 <= i < |rules| && rules[i] == r;
        assert CanonicalRules(rules)[i].column == OrNone(r.column);
      }
    }
  }

  // ---------- Destinations ----------

  /** What is left of the destinations: those with a name, without their schema fields. */
  function CanonicalDestinations(destinations: seq<DestinationObjectConfig>): seq<DestinationObjectConfig> {
    if destinations == [] then []
    else
      (if Truthy(destinations[0].objectName) then [destinations[0].(schemaFields := Null)] else [])
      + CanonicalDestinations(destinations[1..])
  }

  lemma {:induction false} DestinationsComeBack(destinations: seq<DestinationObjectConfig>)
    ensures NormalizeDestinationObjects(DestinationObjects(destinations)) == CanonicalDestinations(destinations)
  {
    hide Truthy;
    if destinations != [] {
      DestinationsComeBack(destinations[1..]);
      assert DestinationObjects(destinations)[1..] == DestinationObjects(destinations[1..]);
      var item := DestinationObjects(destinations)[0];
      assert Get(item, Key.OBJECT_NAME, Null) == destinations[0].objectName;
      assert Get(item, Key.CREATE_IF_NOT_EXISTS, B(true)) == destinations[0].createIfNotExists;
      assert Get(item, Key.SCHEMA_FIELDS, Null) == Null;
    }
  }

  predicate PlainDestination(x: DestinationObjectConfig) {
    Truthy(x.objectName) && x.schemaFields == Null
  }

  lemma {:induction false} CanonicalDestinationsIff(destinations: seq<DestinationObjectConfig>)
    ensures |CanonicalDestinations(destinations)| <= |destinations|
    ensures CanonicalDestinations(destinations) == destinations
       <==> forall x :: x in destinations ==> PlainDestination(x)
  {
    hide Truthy;
    if destinations != [] {
      var rest := destinations[1..];
      CanonicalDestinationsIff(rest);
      assert destinations == [destinations[0]] + rest;
      if Truthy(destinations[0].objectName) {
        var head := destinations[0].(schemaFields := Null);
        assert CanonicalDestinations(destinations) == [head] + CanonicalDestinations(rest);
        assert ([head] + CanonicalDestinations(rest))[1..] == CanonicalDestinations(rest);
        assert PlainDestination(destinations[0]) <==> head == destinations[0];
        assert forall x :: x in destinations <==> x == destinations[0] || x in rest;
      } else {
        assert |CanonicalDestinations(destinations)| < |destinations|;
        assert destinations[0] in destinations;
      }
    }
  }

  // ---------- What is written ----------

  lemma TruthyIff(v: Value)
    ensures Truthy(v) <==> v !in {Null, B(false), I(0), R(0.0), S(""), L([]), D(map[])}
  {
  }

  function IfSet(v: Value, key: Key): set<Key> {
    if v in {Null, B(false), I(0), R(0.0), S(""), L([]), D(map[])} then {} else {key}
  }

  lemma WithKeys(d: Dict, key: Key, v: Value)
    ensures With(d, key, v).Keys == d.Keys + IfSet(v, key)
  {
    TruthyIff(v);
  }

  /** A source's dictionary has an entry for each optional field that is set, and no other; a sensor goes in whole. */
  lemma SourceEntries(e: ExtractionConfig)
    ensures ExtractionDict(e).Keys
         == {Key.OBJECT_NAME, Key.LOAD_STRATEGY, Key.PAGE_SIZE, Key.COMPRESSION, Key.ENCODING}
            + IfSet(e.credentialRef, Key.CREDENTIAL_REF) + IfSet(e.watermarkColumn, Key.WATERMARK_COLUMN)
            + (if e.watermarkType.Some? then {Key.WATERMARK_TYPE} else {})
            + IfSet(e.watermarkInitialValue, Key.WATERMARK_INITIAL_VALUE) + IfSet(e.partitionColumn, Key.PARTITION_COLUMN)
            + IfSet(e.extractionQuery, Key.EXTRACTION_QUERY) + (if e.sensor.Some? then {Key.SENSOR} else {})
    ensures e.sensor.Some? ==> Key.SENSOR in ExtractionDict(e) && ExtractionDict(e)[Key.SENSOR] == D(map[
      Key.QUERY := S(e.sensor.value.query), Key.TIMEOUT_MINUTES := I(e.sensor.value.timeoutMinutes),
      Key.POKE_INTERVAL_SECONDS := I(e.sensor.value.pokeIntervalSeconds)])
  {
    hide With, Truthy, IfSet, WatermarkTypeText;
    var d0 := RequiredEntries(e);
    WithKeys(d0, Key.CREDENTIAL_REF, e.credentialRef);
    var d1 := With(d0, Key.CREDENTIAL_REF, e.credentialRef);
    WithKeys(d1, Key.WATERMARK_COLUMN, e.watermarkColumn);
    var d2 := With(d1, Key.WATERMARK_COLUMN, e.watermarkColumn);
    WithKeys(d2, Key.WATERMARK_TYPE, WatermarkTypeText(e.watermarkType));
    TypeIsSet(e.watermarkType);
    var d3 := With(d2, Key.WATERMARK_TYPE, WatermarkTypeText(e.watermarkType));
    WithKeys(d3, Key.WATERMARK_INITIAL_VALUE, e.watermarkInitialValue);
    var d4 := With(d3, Key.WATERMARK_INITIAL_VALUE, e.watermarkInitialValue);
    WithKeys(d4, Key.PARTITION_COLUMN, e.partitionColumn);
    var d5 := With(d4, Key.PARTITION_COLUMN, e.partitionColumn);
    WithKeys(d5, Key.EXTRACTION_QUERY, e.extractionQuery);
    var d6 := With(d5, Key.EXTRACTION_QUERY, e.extractionQuery);
    SensorIsSet(d6, e.sensor);
  }

  lemma TypeIsSet(t: Option<WatermarkType>)
    ensures IfSet(WatermarkTypeText(t), Key.WATERMARK_TYPE) == if t.Some? then {Key.WATERMARK_TYPE} else {}
  {
    TypeTextIsGiven(t);
    TruthyIff(WatermarkTypeText(t));
  }

  lemma SensorIsSet(d: Dict, sensor: Option<SensorConfig>)
    ensures With(d, Key.SENSOR, SensorValue(sensor)).Keys == d.Keys + (if sensor.Some? then {Key.SENSOR} else {})
    ensures sensor.Some? ==> With(d, Key.SENSOR, SensorValue(sensor))[Key.SENSOR] == D(map[
      Key.QUERY := S(sensor.value.query), Key.TIMEOUT_MINUTES := I(sensor.value.timeoutMinutes),
      Key.POKE_INTERVAL_SECONDS := I(sensor.value.pokeIntervalSeconds)])
  {
    SensorIsGiven(sensor);
  }

  /** The compute section: engine, bucket and sizes always, everything else only when set. */
  lemma ComputeEntries(c: ComputeConfig)
    ensures ComputeSection(c).Keys == {Key.ENGINE, Key.STAGING_BUCKET, Key.CONFIG} + IfSet(S(c.select), Key.SELECT)
    ensures EngineConfig(c).Keys
         == {Key.NUM_WORKERS, Key.MACHINE_TYPE} + IfSet(S(c.sourceType), Key.SOURCE_TYPE)
            + IfSet(S(c.credentialRef), Key.CREDENTIAL_REF) + IfSet(S(c.driver), Key.DRIVER)
            + IfSet(S(c.endpoint), Key.ENDPOINT) + IfSet(S(c.recordsPath), Key.RECORDS_PATH)
            + IfSet(S(c.format), Key.FORMAT) + IfSet(B(c.multiline), Key.MULTILINE)
  {
    hide With, IfSet, EngineEntries;
    var d0 := EngineEntries(c);
    assert d0.Keys == {Key.NUM_WORKERS, Key.MACHINE_TYPE} by {
      EngineEntriesKeys(c);
    }
    WithKeys(d0, Key.SOURCE_TYPE, S(c.sourceType));
    var d1 := With(d0, Key.SOURCE_TYPE, S(c.sourceType));
    WithKeys(d1, Key.CREDENTIAL_REF, S(c.credentialRef));
    var d2 := With(d1, Key.CREDENTIAL_REF, S(c.credentialRef));
    WithKeys(d2, Key.DRIVER, S(c.driver));
    var d3 := With(d2, Key.DRIVER, S(c.driver));
    WithKeys(d3, Key.ENDPOINT, S(c.endpoint));
    var d4 := With(d3, Key.ENDPOINT, S(c.endpoint));
    WithKeys(d4, Key.RECORDS_PATH, S(c.recordsPath));
    var d5 := With(d4, Key.RECORDS_PATH, S(c.recordsPath));
    WithKeys(d5, Key.FORMAT, S(c.format));
    var d6 := With(d5, Key.FORMAT, S(c.format));
    WithKeys(d6, Key.MULTILINE, B(c.multiline));
    WithKeys(SectionEntries(c), Key.SELECT, S(c.select));
  }

  lemma EngineEntriesKeys(c: ComputeConfig)
    ensures EngineEntries(c).Keys == {Key.NUM_WORKERS, Key.MACHINE_TYPE}
  {
  }

  // ---------- Reading what is not all there ----------

  /** The entries of a dictionary under some of its keys. */
  function Only(d: Dict, keep: set<Key>): Dict {
    map k | k in d && k in keep :: d[k]
  }

  /** An airflow section with any entries missing reads as the same settings with the defaults in their place. */
  lemma AirflowTakesDefaults(py: Python, d: Defaults, a: AirflowConfig, keep: set<Key>)
    ensures NormalizeAirflow(py, d, Only(AirflowDict(a), keep))
         == Ok(AirflowConfig(
                 if Key.RETRIES in keep then a.retries else d.retries,
                 if Key.RETRY_DELAY_MINUTES in keep then a.retryDelayMinutes else d.retryDelayMinutes,
                 if Key.EXECUTION_TIMEOUT_MINUTES in keep then a.executionTimeoutMinutes else d.executionTimeoutMinutes,
                 if Key.SLA_MINUTES in keep then a.slaMinutes else d.slaMinutes,
                 if Key.TAGS in keep then a.tags else [],
                 if Key.POOL in keep then a.pool else d.pool))
  {
  }

  /** The same of an extraction, which cannot do without the object's name. */
  lemma ExtractionTakesDefaults(py: Python, d: Defaults, e: ExtractionConfig, keep: set<Key>)
    ensures var r := NormalizeSource(py, d, Only(ExtractionDict(e), keep));
      if Key.OBJECT_NAME !in keep then r == Err(KeyError)
      else if Key.LOAD_STRATEGY !in keep && LoadStrategyOf(S(d.loadStrategy)).Err? then r.Err?
      else r == Ok(ExtractionConfig(
        e.objectName,
        if Key.LOAD_STRATEGY in keep then e.loadStrategy else LoadStrategyOf(S(d.loadStrategy)).value,
        if Key.WATERMARK_COLUMN in keep then OrNone(e.watermarkColumn) else Null,
        if Key.WATERMARK_TYPE in keep then e.watermarkType else None,
        if Key.WATERMARK_INITIAL_VALUE in keep then OrNone(e.watermarkInitialValue) else Null,
        if Key.PAGE_SIZE in keep then e.pageSize else d.pageSize,
        if Key.PARTITION_COLUMN in keep then OrNone(e.partitionColumn) else Null,
        if Key.COMPRESSION in keep then e.compression else S(d.compression),
        if Key.ENCODING in keep then e.encoding else S(d.encoding),
        if Key.EXTRACTION_QUERY in keep then OrNone(e.extractionQuery) else Null,
        if Key.CREDENTIAL_REF in keep then OrNone(e.credentialRef) else Null,
        None))
  {
    hide Get, GivenOr, ExtractionDict, WatermarkTypeText, OptionalWatermarkType, LoadStrategyOf, Only, OrNone;
    var item := ExtractionDict(e);
    ObjectNameIsThere(e);
    OptionsComeBack(e, item);
    SettingsComeBack(d, e, item);
    NothingIsNoType();
    OnlyHas(item, keep, Key.OBJECT_NAME);
    OnlyGets(item, keep, Key.LOAD_STRATEGY, S(d.loadStrategy));
    OnlyGets(item, keep, Key.WATERMARK_COLUMN, Null);
    OnlyGets(item, keep, Key.WATERMARK_TYPE, Null);
    OnlyGets(item, keep, Key.WATERMARK_INITIAL_VALUE, Null);
    OnlyGets(item, keep, Key.PAGE_SIZE, I(d.pageSize));
    OnlyGets(item, keep, Key.PARTITION_COLUMN, Null);
    OnlyGets(item, keep, Key.COMPRESSION, S(d.compression));
    OnlyGets(item, keep, Key.ENCODING, S(d.encoding));
    OnlyGets(item, keep, Key.EXTRACTION_QUERY, Null);
    OnlyGets(item, keep, Key.CREDENTIAL_REF, Null);
  }

  lemma NothingIsNoType()
    ensures OptionalWatermarkType(Null) == Ok(None)
  {
  }

  lemma OnlyHas(d: Dict, keep: set<Key>, k: Key)
    requires k in d
    ensures k in Only(d, keep) <==> k in keep
    ensures k in keep ==> Only(d, keep)[k] == d[k]
  {
  }

  lemma OnlyGets(d: Dict, keep: set<Key>, k: Key, x: Value)
    ensures Get(Only(d, keep), k, x) == if k in keep then Get(d, k, x) else x
  {
  }

  /** The value of a setting, as it stands in the section. */
  function Setting(c: ComputeConfig, k: Key): Value {
    if k == Key.ENGINE then S(ComputeEngineValue(c.engine))
    else if k == Key.NUM_WORKERS then I(c.numWorkers)
    else if k == Key.MACHINE_TYPE then S(c.machineType)
    else if k == Key.MULTILINE then B(c.multiline)
    else S(TextOf(c, k))
  }

  predicate IsSetting(k: Key) {
    k in {Key.ENGINE, Key.NUM_WORKERS, Key.MACHINE_TYPE, Key.MULTILINE, Key.STAGING_BUCKET, Key.SELECT, Key.SOURCE_TYPE,
          Key.CREDENTIAL_REF, Key.DRIVER, Key.ENDPOINT, Key.RECORDS_PATH, Key.FORMAT}
  }

  /** Any settings of a compute section side by side. */
  function FlatSection(c: ComputeConfig, keep: set<Key>): Dict {
    map k | k in keep && IsSetting(k) :: Setting(c, k)
  }

  function Layered<T>(k: Key, outside: set<Key>, a: T, inside: set<Key>, b: T, c: T): T {
    if k in outside then a else if k in inside then b else c
  }

  /** A compute section in two layers: a setting beside "config" wins over one inside it, and that over the default. */
  lemma ComputeLayers(py: Python, d: Defaults, o: ComputeConfig, outside: set<Key>, i: ComputeConfig, inside: set<Key>)
    ensures var r := NormalizeCompute(py, d, FlatSection(o, outside)[Key.CONFIG := D(FlatSection(i, inside))]);
      && (r.Ok? <==> Key.ENGINE in outside || Key.ENGINE in inside || ComputeEngineOf(S(d.defaultEngine)).Ok?)
      && (r.Ok? ==>
            && Ok(r.value.engine) == Layered(Key.ENGINE, outside, Ok(o.engine), inside, Ok(i.engine), ComputeEngineOf(S(d.defaultEngine)))
            && r.value.numWorkers == Layered(Key.NUM_WORKERS, outside, o.numWorkers, inside, i.numWorkers, d.numWorkers)
            && r.value.machineType == Layered(Key.MACHINE_TYPE, outside, o.machineType, inside, i.machineType, d.machineType)
            && r.value.stagingBucket == Layered(Key.STAGING_BUCKET, outside, o.stagingBucket, inside, i.stagingBucket, "")
            && r.value.select == Layered(Key.SELECT, outside, o.select, inside, i.select, "")
            && r.value.sourceType == Layered(Key.SOURCE_TYPE, outside, o.sourceType, inside, i.sourceType, "")
            && r.value.credentialRef == Layered(Key.CREDENTIAL_REF, outside, o.credentialRef, inside, i.credentialRef, "")
            && r.value.driver == Layered(Key.DRIVER, outside, o.driver, inside, i.driver, "")
            && r.value.endpoint == Layered(Key.ENDPOINT, outside, o.endpoint, inside, i.endpoint, "")
            && r.value.recordsPath == Layered(Key.RECORDS_PATH, outside, o.recordsPath, inside, i.recordsPath, "")
            && r.value.format == Layered(Key.FORMAT, outside, o.format, inside, i.format, "")
            && r.value.multiline == Layered(Key.MULTILINE, outside, o.multiline, inside, i.multiline, false))
  {
    hide Get, FlatSection, ComputeEngineOf, ComputeEngineValue, Flattened, Layered, AsStr, AsInt, Truthy, Setting;
    EngineLayer(d, o, outside, i, inside);
    SizeLayer(py, o, outside, i, inside, d.numWorkers);
    TextLayer(py, o, outside, i, inside, Key.MACHINE_TYPE, d.machineType);
    TextLayer(py, o, outside, i, inside, Key.STAGING_BUCKET, "");
    TextLayer(py, o, outside, i, inside, Key.SELECT, "");
    TextLayer(py, o, outside, i, inside, Key.SOURCE_TYPE, "");
    TextLayer(py, o, outside, i, inside, Key.CREDENTIAL_REF, "");
    TextLayer(py, o, outside, i, inside, Key.DRIVER, "");
    TextLayer(py, o, outside, i, inside, Key.ENDPOINT, "");
    TextLayer(py, o, outside, i, inside, Key.RECORDS_PATH, "");
    TextLayer(py, o, outside, i, inside, Key.FORMAT, "");
    FlagLayer(o, outside, i, inside);
  }

  function Section(o: ComputeConfig, outside: set<Key>, i: ComputeConfig, inside: set<Key>): Dict {
    FlatSection(o, outside)[Key.CONFIG := D(FlatSection(i, inside))]
  }

  lemma LayerGets(o: ComputeConfig, outside: set<Key>, i: ComputeConfig, inside: set<Key>, k: Key, x: Value)
    requires IsSetting(k)
    ensures Get(Flattened(Section(o, outside, i, inside)), k, x) == Layered(k, outside, Setting(o, k), inside, Setting(i, k), x)
  {
    hide Setting;
  }

  lemma EngineLayer(d: Defaults, o: ComputeConfig, outside: set<Key>, i: ComputeConfig, inside: set<Key>)
    ensures ComputeEngineOf(Get(Flattened(Section(o, outside, i, inside)), Key.ENGINE, S(d.defaultEngine)))
         == Layered(Key.ENGINE, outside, Ok(o.engine), inside, Ok(i.engine), ComputeEngineOf(S(d.defaultEngine)))
    ensures Layered(Key.ENGINE, outside, Ok(o.engine), inside, Ok(i.engine), ComputeEngineOf(S(d.defaultEngine))).Ok?
       <==> Key.ENGINE in outside || Key.ENGINE in inside || ComputeEngineOf(S(d.defaultEngine)).Ok?
  {
    hide Get, Flattened, Section, ComputeEngineOf, ComputeEngineValue;
    LayerGets(o, outside, i, inside, Key.ENGINE, S(d.defaultEngine));
    EngineComesBack(o.engine);
    EngineComesBack(i.engine);
  }

  lemma SizeLayer(py: Python, o: ComputeConfig, outside: set<Key>, i: ComputeConfig, inside: set<Key>, x: int)
    ensures AsInt(py, Get(Flattened(Section(o, outside, i, inside)), Key.NUM_WORKERS, I(x)))
         == Ok(Layered(Key.NUM_WORKERS, outside, o.numWorkers, inside, i.numWorkers, x))
  {
    hide Get, Flattened, Section;
    LayerGets(o, outside, i, inside, Key.NUM_WORKERS, I(x));
  }

  lemma TextLayer(py: Python, o: ComputeConfig, outside: set<Key>, i: ComputeConfig, inside: set<Key>, k: Key, x: string)
    requires IsTextKey(k) || k == Key.MACHINE_TYPE
    ensures AsStr(py, Get(Flattened(Section(o, outside, i, inside)), k, S(x)))
         == Layered(k, outside, if k == Key.MACHINE_TYPE then o.machineType else TextOf(o, k),
                    inside, if k == Key.MACHINE_TYPE then i.machineType else TextOf(i, k), x)
  {
    hide Get, Flattened, Section;
    LayerGets(o, outside, i, inside, k, S(x));
  }

  lemma FlagLayer(o: ComputeConfig, outside: set<Key>, i: ComputeConfig, inside: set<Key>)
    ensures Truthy(Get(Flattened(Section(o, outside, i, inside)), Key.MULTILINE, B(false)))
         == Layered(Key.MULTILINE, outside, o.multiline, inside, i.multiline, false)
  {
    hide Get, Flattened, Section;
    LayerGets(o, outside, i, inside, Key.MULTILINE, B(false));
  }

  /** A value of an enumeration is read from its own text and from nothing else. */
  lemma LoadStrategyReadsIff(v: Value, l: LoadStrategy)
    ensures LoadStrategyOf(v) == Ok(l) <==> v == S(LoadStrategyValue(l))
  {
  }

  lemma WatermarkTypeReadsIff(v: Value, t: WatermarkType)
    ensures WatermarkTypeOf(v) == Ok(t) <==> v == S(WatermarkTypeValue(t))
  {
  }

  lemma EngineReadsIff(v: Value, e: ComputeEngine)
    ensures ComputeEngineOf(v) == Ok(e) <==> v == S(ComputeEngineValue(e))
  {
    if v == S(ComputeEngineValue(e)) {
      EngineComesBack(e);
    }
  }

  lemma RuleTypeReadsIff(v: Value, q: QualityRuleType)
    ensures QualityRuleTypeOf(v) == Ok(q) <==> v == S(QualityRuleTypeValue(q))
  {
  }

  /** int() of a number drops its fraction, towards zero; of a truth value it is 1 or 0; a missing value has none. */
  lemma AsIntIs(py: Python, r: real)
    ensures AsInt(py, R(r)).Ok?
    ensures var n := AsInt(py, R(r)).value as real;
      if r >= 0.0 then n <= r < n + 1.0 else n - 1.0 < r <= n
    ensures AsInt(py, B(true)) == Ok(1) && AsInt(py, B(false)) == Ok(0) && AsInt(py, Null).Err?
  {
  }

  /** A list of sources is read item by item, and not at all if one item cannot be. */
  lemma {:induction false} ExtractionItemByItem(py: Python, d: Defaults, items: seq<Dict>)
    ensures var r := NormalizeExtraction(py, d, items);
      && (r.Ok? <==> forall i :: 0 <= i < |items| ==> NormalizeSource(py, d, items[i]).Ok?)
      && (r.Ok? ==> |r.value| == |items| && forall i :: 0 <= i < |items| ==> NormalizeSource(py, d, items[i]) == Ok(r.value[i]))
  {
    hide NormalizeSource;
    if items != [] {
      ExtractionItemByItem(py, d, items[1..]);
      assert forall i :: 0 <= i < |items| - 1 ==> items[1..][i] == items[i + 1];
      if NormalizeExtraction(py, d, items).Ok? {
        forall i | 0 <= i < |items|
          ensures NormalizeSource(py, d, items[i]) == Ok(NormalizeExtraction(py, d, items).value[i])
        {
          assert i > 0 ==> items[i] == items[1..][i - 1];
        }
      }
    }
  }

  /** So is a list of rules; a rule needs its type and nothing else. */
  lemma {:induction false} QualityItemByItem(items: seq<Dict>)
    ensures var r := NormalizeQualityRules(items);
      && (r.Ok? <==> forall i :: 0 <= i < |items| ==> Key.TYPE in items[i] && QualityRuleTypeOf(items[i][Key.TYPE]).Ok?)
      && (r.Ok? ==> |r.value| == |items| && forall i :: 0 <= i < |items| ==>
            && Ok(r.value[i].type_) == QualityRuleTypeOf(items[i][Key.TYPE])
            && r.value[i].column == (if Key.COLUMN in items[i] then items[i][Key.COLUMN] else Null)
            && r.value[i].value == if Key.VALUE in items[i] then items[i][Key.VALUE] else Null)
  {
    hide QualityRuleTypeOf;
    if items != [] {
      QualityItemByItem(items[1..]);
      assert forall i :: 0 <= i < |items| - 1 ==> items[1..][i] == items[i + 1];
      if NormalizeQualityRules(items).Ok? {
        forall i | 0 <= i < |items|
          ensures Ok(NormalizeQualityRules(items).value[i]) == NormalizeRule(items[i])
        {
          assert i > 0 ==> items[i] == items[1..][i - 1];
        }
      }
    }
  }

  /** A destination is dropped iff it has no name; by default it is created, and schema fields written by hand are kept. */
  lemma DestinationIs(item: Dict, rest: seq<Dict>)
    ensures NormalizeDestinationObjects([]) == []
    ensures NormalizeDestinationObjects([item] + rest)
         == (if Key.OBJECT_NAME in item && item[Key.OBJECT_NAME] !in {Null, B(false), I(0), R(0.0), S(""), L([]), D(map[])}
             then [DestinationObjectConfig(
                     item[Key.OBJECT_NAME],
                     if Key.CREATE_IF_NOT_EXISTS in item then item[Key.CREATE_IF_NOT_EXISTS] else B(true),
                     if Key.SCHEMA_FIELDS in item then item[Key.SCHEMA_FIELDS] else Null)]
             else [])
            + NormalizeDestinationObjects(rest)
  {
    assert ([item] + rest)[1..] == rest;
    TruthyIff(Get(item, Key.OBJECT_NAME, Null));
  }

  // ---------- A whole pipeline ----------

  function ReadBack(py: Python, d: Defaults, p: Pipeline): Result<Pipeline, PythonError> {
    var sources :- NormalizeExtraction(py, d, SourceObjects(p.sources));
    var compute :- NormalizeCompute(py, d, ComputeSection(p.compute));
    var quality :- NormalizeQualityRules(Metrics(p.quality));
    var airflow :- NormalizeAirflow(py, d, AirflowDict(p.airflow));
    Ok(Pipeline(sources, NormalizeDestinationObjects(DestinationObjects(p.destinations)), compute, quality, airflow))
  }

  ghost predicate PlainPipeline(p: Pipeline) {
    && (forall e :: e in p.sources ==> PlainSource(e))
    && (forall x :: x in p.destinations ==> PlainDestination(x))
    && (forall r :: r in p.quality ==> PlainOption(r.column))
  }

  /** What was generated always reads back, under any defaults, and as the same pipeline exactly when it was plain. */
  lemma PipelineComesBackIff(py: Python, d: Defaults, p: Pipeline)
    ensures ReadBack(py, d, p)
         == Ok(Pipeline(CanonicalSources(p.sources), CanonicalDestinations(p.destinations), p.compute,
                        CanonicalRules(p.quality), p.airflow))
    ensures ReadBack(py, d, p) == Ok(p) <==> PlainPipeline(p)
  {
    hide NormalizeExtraction, NormalizeCompute, NormalizeQualityRules, NormalizeAirflow, NormalizeDestinationObjects,
      SourceObjects, ComputeSection, Metrics, AirflowDict, DestinationObjects,
      CanonicalSources, CanonicalDestinations, CanonicalRules, PlainSource, PlainDestination, PlainOption;
    ExtractionComesBack(py, d, p.sources);
    CanonicalSourcesIff(p.sources);
    DestinationsComeBack(p.destinations);
    CanonicalDestinationsIff(p.destinations);
    ComputeComesBack(py, d, p.compute);
    QualityComesBack(p.quality);
    CanonicalRulesIff(p.quality);
    AirflowComesBack(py, d, p.airflow);
    var q := Pipeline(CanonicalSources(p.sources), CanonicalDestinations(p.destinations), p.compute,
                      CanonicalRules(p.quality), p.airflow);
    assert q == p <==> q.sources == p.sources && q.destinations == p.destinations && q.quality == p.quality;
  }
}
