/** The typed configuration of the Iceberg REST server: one ConfigEntry per
    key, each with a value type, an optional default and an optional
    acceptance check, and `Get`, which reads an entry from the loaded
    key/value map. */
module IcebergServerConfig {
  import opened Wrappers
  import opened StringUtils
  import opened JavaParsing

  /** Messages of the acceptance checks. */
  const NotBlankErrorMsg: string := "The value can't be blank"
  const PositiveNumberErrorMsg: string := "The value must be a positive number"
  const Version010: string := "0.1.0"

  /** intConf(), stringConf(), booleanConf(). */
  datatype ValueType = IntConf | StringConf | BooleanConf

  /** A converted configuration value. */
  datatype Value = IntValue(i: int) | StringValue(s: string) | BooleanValue(b: bool)

  /** The two acceptance predicates the entries use: `value > 0` and
      StringUtils::isNotBlank. */
  datatype Check = Positive | NotBlank

  /** checkValue(predicate, errorMessage). */
  datatype Validator = CheckValue(check: Check, errorMessage: string)

  /** A declared configuration key. A missing `defaultValue` is an entry
      built with create() rather than createWithDefault(...). */
  datatype ConfigEntry = ConfigEntry(
    key: string,
    version: string,
    valueType: ValueType,
    defaultValue: Option<Value>,
    validator: Option<Validator>)

  /** Why reading an entry failed: no value and no default
      (NoSuchElementException), a value that does not convert to the entry's
      type (NumberFormatException), or a value the check rejects
      (IllegalArgumentException carrying the entry's message). */
  datatype ConfigError =
    | NoSuchElement(key: string)
    | NumberFormat(key: string, raw: string)
    | IllegalArgument(key: string, message: string)

  /** The loaded configuration: raw string values by key. */
  datatype Config = Config(configMap: map<string, string>)

  const ServerShutdownTimeout: ConfigEntry :=
    ConfigEntry("server.shutdown.timeout", "0.1.0", IntConf,
                Some(IntValue(3 * 1000)), Some(CheckValue(Positive, PositiveNumberErrorMsg)))

  const CatalogBackend: ConfigEntry :=
    ConfigEntry("catalog-backend", Version010, StringConf, Some(StringValue("memory")), None)

  const CatalogWarehouse: ConfigEntry :=
    ConfigEntry("warehouse", Version010, StringConf, None, Some(CheckValue(NotBlank, NotBlankErrorMsg)))

  const CatalogUri: ConfigEntry :=
    ConfigEntry("uri", Version010, StringConf, None, Some(CheckValue(NotBlank, NotBlankErrorMsg)))

  const JdbcUser: ConfigEntry :=
    ConfigEntry("jdbc-user", Version010, StringConf, None, Some(CheckValue(NotBlank, NotBlankErrorMsg)))

  const JdbcPassword: ConfigEntry :=
    ConfigEntry("jdbc-passwd", Version010, StringConf, None, Some(CheckValue(NotBlank, NotBlankErrorMsg)))

  const JdbcDriver: ConfigEntry :=
    ConfigEntry("jdbc-driver", Version010, StringConf, None, Some(CheckValue(NotBlank, NotBlankErrorMsg)))

  const JdbcInitTables: ConfigEntry :=
    ConfigEntry("initial", Version010, BooleanConf, Some(BooleanValue(true)), None)

  const IcebergMetricsStore: ConfigEntry :=
    ConfigEntry("iceberg.metrics.store", Version010, StringConf, None, None)

  const IcebergMetricsStoreRetainDays: ConfigEntry :=
    ConfigEntry("iceberg.metrics.store.retain.days", Version010, IntConf, Some(IntValue(-1)), None)

  const IcebergMetricsQueueCapacity: ConfigEntry :=
    ConfigEntry("iceberg.metrics.queue.capacity", Version010, IntConf,
                Some(IntValue(1000)), Some(CheckValue(Positive, PositiveNumberErrorMsg)))

  /** Every entry the server declares, in declaration order. */
  const Entries: seq<ConfigEntry> := [
    ServerShutdownTimeout, CatalogBackend, CatalogWarehouse, CatalogUri, JdbcUser,
    JdbcPassword, JdbcDriver, JdbcInitTables, IcebergMetricsStore,
    IcebergMetricsStoreRetainDays, IcebergMetricsQueueCapacity]

  predicate HasType(v: Value, t: ValueType) {
    match t
    case IntConf => v.IntValue?
    case StringConf => v.StringValue?
    case BooleanConf => v.BooleanValue?
  }

  /** Does the check accept the value? */
  predicate Accepts(check: Check, v: Value) {
    match check
    case Positive => v.IntValue? && v.i > 0
    case NotBlank => v.StringValue? && IsNotBlank(Some(v.s))
  }

  /** An entry is well formed when its default has the entry's type and
      passes the entry's own check. */
  predicate WellFormedEntry(e: ConfigEntry) {
    e.defaultValue.Some? ==>
      HasType(e.defaultValue.value, e.valueType) &&
      (e.validator.Some? ==> Accepts(e.validator.value.check, e.defaultValue.value))
  }

  /** Converts a stored string to the entry's type: strings and booleans
      always convert, an integer only when it is a 32-bit decimal. */
  function Convert(t: ValueType, key: string, raw: string): (r: Result<Value, ConfigError>)
    ensures r.Success? ==> HasType(r.value, t)
    ensures t != IntConf ==> r.Success?
    ensures r.Failure? ==> t == IntConf && r.error == NumberFormat(key, raw)
    ensures r.Success? && t == StringConf ==> r.value.s == raw
    ensures r.Success? && t == BooleanConf && r.value.b ==> |raw| == 4
    ensures r.Success? && t == IntConf ==> IntMin <= r.value.i <= IntMax
    ensures t == IntConf ==> (r.Success? <==> ParseInt(raw).Some?)
    ensures r.Success? && t == IntConf ==> ParseInt(raw) == Some(r.value.i)
    ensures r.Success? && t == BooleanConf ==> r.value.b == ParseBoolean(Some(raw))
  {
    match t
    case IntConf =>
      (match ParseInt(raw)
       case Some(n) => Success(IntValue(n))
       case None => Failure(NumberFormat(key, raw)))
    case StringConf => Success(StringValue(raw))
    case BooleanConf => Success(BooleanValue(ParseBoolean(Some(raw))))
  }

  /** config.get(entry): a stored value is converted and then checked (a
      rejected value is an error, never replaced by the default); without a
      stored value the default is returned, and without a default the read
      fails. */
  function Get(c: Config, e: ConfigEntry): (r: Result<Value, ConfigError>)
    ensures e.key !in c.configMap ==>
      r == (if e.defaultValue.Some? then Success(e.defaultValue.value) else Failure(NoSuchElement(e.key)))
    ensures e.key in c.configMap && r.Success? ==>
      HasType(r.value, e.valueType) &&
      (e.validator.Some? ==> Accepts(e.validator.value.check, r.value))
    ensures e.key in c.configMap && e.validator.Some? && Convert(e.valueType, e.key, c.configMap[e.key]).Success? ==>
      (r.Success? <==> Accepts(e.validator.value.check, Convert(e.valueType, e.key, c.configMap[e.key]).value))
    ensures r.Failure? && r.error.IllegalArgument? ==>
      e.validator.Some? && r.error == IllegalArgument(e.key, e.validator.value.errorMessage)
    ensures e.key in c.configMap && (r.Success? || e.validator.None?) ==>
      r == Convert(e.valueType, e.key, c.configMap[e.key])
    ensures e.key in c.configMap && Convert(e.valueType, e.key, c.configMap[e.key]).Failure? ==>
      r == Convert(e.valueType, e.key, c.configMap[e.key])
    ensures e.key in c.configMap && e.validator.Some? && Convert(e.valueType, e.key, c.configMap[e.key]).Success? &&
            !Accepts(e.validator.value.check, Convert(e.valueType, e.key, c.configMap[e.key]).value) ==>
      r == Failure(IllegalArgument(e.key, e.validator.value.errorMessage))
  {
    if e.key !in c.configMap then
      match e.defaultValue
      case Some(d) => Success(d)
      case None => Failure(NoSuchElement(e.key))
    else
      match Convert(e.valueType, e.key, c.configMap[e.key])
      case Failure(err) => Failure(err)
      case Success(v) =>
        if e.validator.Some? && !Accepts(e.validator.value.check, v) then
          Failure(IllegalArgument(e.key, e.validator.value.errorMessage))
        else
          Success(v)
  }

  /** Config.loadFromMap(properties, keyFilter): every property whose key the
      filter accepts is stored, over what was stored before. */
  function LoadFromMap(c: Config, properties: map<string, string>, keyFilter: string -> bool): (r: Config)
    ensures forall k :: k in r.configMap <==> k in c.configMap || (k in properties && keyFilter(k))
    ensures forall k | k in properties && keyFilter(k) :: r.configMap[k] == properties[k]
    ensures forall k | k in c.configMap && !(k in properties && keyFilter(k)) :: r.configMap[k] == c.configMap[k]
  {
    Config(c.configMap + map k | k in properties && keyFilter(k) :: properties[k])
  }

  /** new IcebergServerConfig(): nothing loaded. */
  function EmptyConfig(): (c: Config)
    ensures forall e :: Get(c, e).Success? <==> e.defaultValue.Some?
  {
    Config(map[])
  }

  /** new IcebergServerConfig(properties): the key filter accepts every key,
      so the loaded map is exactly the given one. */
  function FromMap(properties: map<string, string>): (c: Config)
    ensures c.configMap == properties
  {
    LoadFromMap(EmptyConfig(), properties, k => true)
  }

  /** getJdbcDriver(). */
  function GetJdbcDriver(c: Config): (r: Result<string, ConfigError>)
    ensures JdbcDriver.key !in c.configMap ==> r == Failure(NoSuchElement("jdbc-driver"))
    ensures r.Success? ==> IsNotBlank(Some(r.value)) && r.value == c.configMap["jdbc-driver"]
    ensures "jdbc-driver" in c.configMap && IsNotBlank(Some(c.configMap["jdbc-driver"])) ==>
      r == Success(c.configMap["jdbc-driver"])
    ensures "jdbc-driver" in c.configMap && IsBlank(Some(c.configMap["jdbc-driver"])) ==>
      r == Failure(IllegalArgument("jdbc-driver", NotBlankErrorMsg))
  {
    match Get(c, JdbcDriver)
    case Success(v) => Success(v.s)
    case Failure(err) => Failure(err)
  }

  /** The retain-days setting: a value not greater than 0 means metrics are
      kept forever. */
  predicate RetainsForever(retainDays: int) {
    retainDays <= 0
  }

  /** Every declared entry is well formed. */
  lemma EntriesWellFormed()
    ensures forall e <- Entries :: WellFormedEntry(e)
  {
  }

  /** Whatever `Get` returns for a declared entry has the entry's type and
      passes the entry's check, whether it was read or defaulted. */
  lemma GetObeysEntry(c: Config, e: ConfigEntry)
    requires e in Entries
    ensures Get(c, e).Success? ==>
      HasType(Get(c, e).value, e.valueType) &&
      (e.validator.Some? ==> Accepts(e.validator.value.check, Get(c, e).value))
  {
    EntriesWellFormed();
  }

  /** server.shutdown.timeout and the metrics queue capacity: a stored
      integer is accepted only when it is positive, otherwise the read fails
      with the positive-number message; unset, they are 3000 and 1000. */
  lemma PositiveIntEntries(c: Config, e: ConfigEntry, raw: string)
    requires e == ServerShutdownTimeout || e == IcebergMetricsQueueCapacity
    ensures e.key !in c.configMap ==>
      Get(c, e) == Success(IntValue(if e == ServerShutdownTimeout then 3000 else 1000))
    ensures e.key in c.configMap && c.configMap[e.key] == raw && ParseInt(raw).Some? ==>
      Get(c, e) == (if ParseInt(raw).value > 0 then Success(IntValue(ParseInt(raw).value))
                    else Failure(IllegalArgument(e.key, PositiveNumberErrorMsg)))
    ensures e.key in c.configMap && c.configMap[e.key] == raw && ParseInt(raw).None? ==>
      Get(c, e) == Failure(NumberFormat(e.key, raw))
    ensures Get(c, e).Success? ==> Get(c, e).value.IntValue? && Get(c, e).value.i > 0
  {
  }

  /** A shutdown timeout written as the decimal of n reads back as n
      exactly when n is positive. */
  lemma ShutdownTimeoutWritten(n: int)
    requires IntMin <= n <= IntMax
    ensures Get(FromMap(map["server.shutdown.timeout" := FormatInt(n)]), ServerShutdownTimeout).Success?
            <==> n > 0
    ensures n > 0 ==>
      Get(FromMap(map["server.shutdown.timeout" := FormatInt(n)]), ServerShutdownTimeout) == Success(IntValue(n))
  {
    ParseFormatRoundTrip(n);
  }

  /** warehouse, uri, jdbc-user, jdbc-passwd and jdbc-driver have no
      default: unset they fail, blank they fail with the not-blank message,
      otherwise the stored string is the value. */
  lemma NotBlankEntries(c: Config, e: ConfigEntry)
    requires e in {CatalogWarehouse, CatalogUri, JdbcUser, JdbcPassword, JdbcDriver}
    ensures e.key !in c.configMap ==> Get(c, e) == Failure(NoSuchElement(e.key))
    ensures e.key in c.configMap && IsBlank(Some(c.configMap[e.key])) ==>
      Get(c, e) == Failure(IllegalArgument(e.key, NotBlankErrorMsg))
    ensures e.key in c.configMap && IsNotBlank(Some(c.configMap[e.key])) ==>
      Get(c, e) == Success(StringValue(c.configMap[e.key]))
  {
  }

  /** catalog-backend never fails: unset it is "memory", set it is the
      stored string unchecked, even a blank one. */
  lemma CatalogBackendEntry(c: Config)
    ensures Get(c, CatalogBackend) ==
      Success(StringValue(if "catalog-backend" in c.configMap then c.configMap["catalog-backend"] else "memory"))
  {
  }

  /** initial (create JDBC meta tables) defaults to true; a stored value is
      true only if it is "true" in any casing. */
  lemma JdbcInitTablesEntry(c: Config)
    ensures Get(c, JdbcInitTables) ==
      Success(BooleanValue(if "initial" in c.configMap then ParseBoolean(Some(c.configMap["initial"])) else true))
  {
  }

  /** The retain-days entry has no check: every integer is accepted, and
      unset it is -1, which means retain forever. */
  lemma RetainDaysEntry(c: Config)
    ensures IcebergMetricsStoreRetainDays.key !in c.configMap ==>
      Get(c, IcebergMetricsStoreRetainDays) == Success(IntValue(-1)) && RetainsForever(-1)
    ensures IcebergMetricsStoreRetainDays.key in c.configMap ==>
      var raw := c.configMap[IcebergMetricsStoreRetainDays.key];
      Get(c, IcebergMetricsStoreRetainDays) ==
        (if ParseInt(raw).Some? then Success(IntValue(ParseInt(raw).value))
         else Failure(NumberFormat(IcebergMetricsStoreRetainDays.key, raw)))
  {
  }

  /** The metrics store has neither default nor check. */
  lemma MetricsStoreEntry(c: Config)
    ensures Get(c, IcebergMetricsStore) ==
      if IcebergMetricsStore.key in c.configMap then Success(StringValue(c.configMap[IcebergMetricsStore.key]))
      else Failure(NoSuchElement(IcebergMetricsStore.key))
  {
  }
}
