# Iceberg REST server: embedded web server and typed configuration

This project models two parts of the Iceberg REST catalog server (package
`com.datastrato.aurora`) and proves properties about them.

1. **`JettyServer`** is the embedded web server. The model is the class
   `JettyServer.JettyServer`. Its fields are the ones the Java object
   assigns: the optional Jetty `server`, the servlet context, the web-server
   configuration and the server name. `initialize` checks the HTTPS/TLS
   arguments and builds the thread pool and the server. When the HTTPS
   checks pass, it adds exactly one connector, HTTP or HTTPS, installs the default servlet and, when there is
   a metrics system, the two metrics servlets. `start` and `stop` drive the
   Jetty lifecycle. `addServlet`, `addFilter` and `addCustomFilters` append
   to the servlet context; the last one does so in a loop over the
   configured filter names. The Jetty objects themselves (pool, connectors,
   SSL context, servlet and filter holders) are value records in module
   `Jetty`. The pure steps of initialisation are functions there: the
   argument checks, the connector choice and the custom filter chain. A
   ghost trace `calls` records the lifecycle calls made on Jetty, so the
   order of the steps in `stop` can be stated.
2. **`IcebergServerConfig`** is the typed key/value configuration. Each
   `ConfigEntry` is a record: key, value type, optional default, optional
   acceptance check with its error message. `Get` returns the stored value
   converted and checked, else the default, else a missing-value error.
   `FromMap` is the map constructor. Module `JavaParsing` models the JDK
   conversions an int or boolean entry goes through: `Integer.parseInt` and
   `Boolean.parseBoolean`, with round-trip lemmas. Module `StringUtils`
   models the blank test both files rely on.

Exceptions become `Outcome`/`Result` values: `IllegalArgumentException`
from `Preconditions.checkArgument`, `NullPointerException` when a method
is called before the object it needs exists, and the `RuntimeException`
of a failed start. No precondition excludes them.

Behaviour of the code that the model keeps as it is:
- There is no explicit lifecycle state machine and no
  "invalid state transition" error. `start` on a server that was never
  initialised hits a `NullPointerException`. The `catch (Exception e)`
  catches it and rethrows the ordinary "Failed to start … web server."
  `RuntimeException`. `initialize` may be called again at any time. It
  always replaces the configuration, the name and the server; the old server
  is dropped without being stopped. The servlet context is replaced only
  when the HTTPS checks pass; when they fail, the old context stays.
- A failed TLS check is an `IllegalArgumentException` raised *after* the
  pool and the server are built and stored. The object is left with a
  server that has no connector and no handler.
- `stop` first sets the pool's stop timeout to 0, then stops the server,
  then stops the pool explicitly. If the server's stop throws, that
  explicit pool stop is skipped; the exception is swallowed and the server
  is dropped anyway. Jetty's own server stop also stops the pool, which it
  manages as one of its beans; that happens inside Jetty and is not
  modelled.
  Stopping the metrics consumer is not part of `stop`.
- The pool's idle timeout is the constant 60000 ms. The configured idle
  timeout goes to the connectors only.
- Custom filters are appended in configured order after whatever filters
  were added before. No fixed chain position is enforced.

## Model

| member | source | states |
|---|---|---|
| StringUtils.BlankIffStripsToEmpty | server/src/main/java/com/datastrato/aurora/server/JettyServer.java:87-102 | `isBlank` holds exactly when the value is null or nothing is left after stripping leading whitespace; `isNotBlank` is its negation and implies a non-empty string |
| JavaParsing.ParseInt | server/src/main/java/com/datastrato/aurora/config/IcebergServerConfig.java:13-19 | an int entry's parse succeeds only on an optionally signed digit string, and only for values in the 32-bit range |
| JavaParsing.FormatNat | server/src/main/java/com/datastrato/aurora/config/IcebergServerConfig.java:13-19 | the decimal form of n is a digit string without leading zeros that denotes n |
| JavaParsing.FormatInt | server/src/main/java/com/datastrato/aurora/config/IcebergServerConfig.java:13-19 | Integer.toString: a non-negative n is written as digits denoting n; a negative n as '-' followed by digits denoting -n |
| JavaParsing.ParseFormatRoundTrip | server/src/main/java/com/datastrato/aurora/config/IcebergServerConfig.java:13-19 | every 32-bit int written in decimal parses back to itself |
| JavaParsing.ParseBoolean | server/src/main/java/com/datastrato/aurora/config/IcebergServerConfig.java:68-73 | a boolean entry is true only for a four-letter value |
| JavaParsing.FormatBoolean | server/src/main/java/com/datastrato/aurora/config/IcebergServerConfig.java:68-73 | Boolean.toString: parsing the written form with Boolean.parseBoolean gives the boolean back; only true is written with four letters |
| JavaParsing.ParseFormatBooleanRoundTrip | server/src/main/java/com/datastrato/aurora/config/IcebergServerConfig.java:68-73 | writing a boolean and parsing it back gives it back; "TRUE" is true; null, "yes" and "1" are false |
| IcebergServerConfig.Convert | server/src/main/java/com/datastrato/aurora/config/IcebergServerConfig.java:13-73 | string and boolean entries always convert and an int entry converts exactly when Integer.parseInt accepts the text; a success has the entry's type: a string is the stored text unchanged, an int is the number Integer.parseInt reads (so within the 32-bit range), a boolean is Boolean.parseBoolean of the text; the only failure is a number-format error naming the key and the text |
| IcebergServerConfig.Get | server/src/main/java/com/datastrato/aurora/config/IcebergServerConfig.java:13-34 | with no stored value: the default, or a missing-value error when there is none; with a stored value: a conversion error is returned as is, an entry without a check returns the converted value, and an entry with a check returns the converted value exactly when the check accepts it, otherwise an error with the entry's own message; a success is always the converted stored value, never the default |
| IcebergServerConfig.LoadFromMap | server/src/main/java/com/datastrato/aurora/config/IcebergServerConfig.java:102-105 | exactly the keys the filter accepts are added, with their values, over the existing ones |
| IcebergServerConfig.EmptyConfig | server/src/main/java/com/datastrato/aurora/config/IcebergServerConfig.java:107-109 | in an empty configuration an entry can be read exactly when it has a default |
| IcebergServerConfig.FromMap | server/src/main/java/com/datastrato/aurora/config/IcebergServerConfig.java:102-105 | the map constructor loads every supplied key and value, since its filter accepts all keys |
| IcebergServerConfig.GetJdbcDriver | server/src/main/java/com/datastrato/aurora/config/IcebergServerConfig.java:98-100 | unset, the read fails as missing; a stored non-blank driver is returned as stored; a blank one is rejected with the not-blank message; any success is the stored, non-blank string |
| IcebergServerConfig.EntriesWellFormed | server/src/main/java/com/datastrato/aurora/config/IcebergServerConfig.java:13-96 | every default has its entry's type and passes its entry's check |
| IcebergServerConfig.GetObeysEntry | server/src/main/java/com/datastrato/aurora/config/IcebergServerConfig.java:13-96 | any value read for a declared entry, stored or default, has the entry's type and passes its check |
| IcebergServerConfig.PositiveIntEntries | server/src/main/java/com/datastrato/aurora/config/IcebergServerConfig.java:13-19 | server.shutdown.timeout and the metrics queue capacity (lines 90-96) default to 3000 and 1000; in any configuration, a stored integer is accepted exactly when it is > 0 and otherwise rejected with the positive-number message; a non-number is a number-format error; every value read is positive |
| IcebergServerConfig.ShutdownTimeoutWritten | server/src/main/java/com/datastrato/aurora/config/IcebergServerConfig.java:13-19 | a shutdown timeout written as the decimal of n reads back successfully exactly when n > 0, and then as n |
| IcebergServerConfig.NotBlankEntries | server/src/main/java/com/datastrato/aurora/config/IcebergServerConfig.java:28-66 | warehouse, uri, jdbc-user, jdbc-passwd, jdbc-driver: unset is a missing-value error, blank is rejected with the not-blank message, otherwise the stored string is returned |
| IcebergServerConfig.CatalogBackendEntry | server/src/main/java/com/datastrato/aurora/config/IcebergServerConfig.java:21-26 | catalog-backend never fails: "memory" by default, the stored string unchecked otherwise |
| IcebergServerConfig.JdbcInitTablesEntry | server/src/main/java/com/datastrato/aurora/config/IcebergServerConfig.java:68-73 | initial defaults to true; a stored value is read as a Java boolean |
| IcebergServerConfig.MetricsStoreEntry | server/src/main/java/com/datastrato/aurora/config/IcebergServerConfig.java:75-80 | the metrics store has no default and no check |
| IcebergServerConfig.RetainDaysEntry | server/src/main/java/com/datastrato/aurora/config/IcebergServerConfig.java:82-88 | retain days defaults to -1, meaning retain forever; any stored integer is accepted unchecked |
| Jetty.HttpsArgumentCheck | server/src/main/java/com/datastrato/aurora/server/JettyServer.java:85-103 | passes exactly when HTTPS is off, or key-store path, key-store password and manager password are non-blank and, with client auth, trust-store path and password are too; the first blank field in source order (key-store path, key-store password, manager password, trust-store path, trust-store password) gives its own message; trust-store messages only arise with client auth |
| Jetty.CreateHttpServerConnector | server/src/main/java/com/datastrato/aurora/server/JettyServer.java:231-252 | a plain connector on the given host and port with address reuse, no secure scheme, port or customiser, and the given idle timeout |
| Jetty.CreateHttpsServerConnector | server/src/main/java/com/datastrato/aurora/server/JettyServer.java:263-315 | a TLS connector on the given host and port with the key store as given; protocol pinned only when present; cipher suites restricted only to a non-empty set, then to exactly that set; need-client-auth and the trust store set exactly when client auth is on |
| Jetty.ChooseConnector | server/src/main/java/com/datastrato/aurora/server/JettyServer.java:85-134 | the connector is HTTPS exactly when HTTPS is enabled; its port is getPort's answer (HTTPS port or HTTP port); host, header sizes and idle timeout come from the configuration |
| Jetty.CreateThreadPool | server/src/main/java/com/datastrato/aurora/server/JettyServer.java:326-355 | the pool has the given max and min thread counts, a fixed 60000 ms idle timeout, a work queue bounded by the given size, and the server's name |
| Jetty.InitializedServer | server/src/main/java/com/datastrato/aurora/server/JettyServer.java:68-134 | the pool has the configured max and min threads, work-queue bound and name, with a 60000 ms idle timeout; stop timeout as configured; stop at shutdown; when the checks pass, exactly the chosen connector and the context handler; when they fail, neither; an HTTPS connector always has non-blank key material, and non-blank trust material under client auth |
| Jetty.TrustStoreIgnoredWithoutClientAuth | server/src/main/java/com/datastrato/aurora/server/JettyServer.java:96-103 | with client auth off, changing the trust-store settings changes neither the checks, nor the connector, nor the resulting server |
| Jetty.TlsSettingsIgnoredOverHttp | server/src/main/java/com/datastrato/aurora/server/JettyServer.java:123-134 | with HTTPS off the checks pass and no TLS setting or HTTPS port affects the server |
| Jetty.BasicServletContextHandler | server/src/main/java/com/datastrato/aurora/server/JettyServer.java:225-229 | a fresh context at "/" holding only the default servlet on "/", with no filters and no attributes |
| Jetty.InitialContextHandler | server/src/main/java/com/datastrato/aurora/server/JettyServer.java:136-146 | the default servlet is first, on "/"; "/metrics" and "/prometheus/metrics" are registered, and the registry attribute set, exactly when a metrics system is given; without one the context is exactly the basic one |
| Jetty.NonBlankNames | server/src/main/java/com/datastrato/aurora/server/JettyServer.java:362-365 | no more names are kept than are configured |
| Jetty.NonBlankNamesAreNotBlank | server/src/main/java/com/datastrato/aurora/server/JettyServer.java:362-365 | every name kept is non-blank and is one of the configured names |
| Jetty.NonBlankNamesKeepsEvery | server/src/main/java/com/datastrato/aurora/server/JettyServer.java:362-365 | every non-blank configured name is kept, after the names kept from before it and before those kept from after it |
| Jetty.NonBlankNamesAppend | server/src/main/java/com/datastrato/aurora/server/JettyServer.java:362-365 | the non-blank names of a + b are those of a followed by those of b |
| Jetty.NonBlankNamesNone | server/src/main/java/com/datastrato/aurora/server/JettyServer.java:362-365 | no name survives exactly when every configured name is blank |
| Jetty.CustomFilterPrefix | server/src/main/java/com/datastrato/aurora/server/JettyServer.java:361-374 | a filter from the first i names means the whole list has a non-blank name; over the whole list, no filter exactly when no name is non-blank |
| Jetty.CustomFilterHolder | server/src/main/java/com/datastrato/aurora/server/JettyServer.java:366-371 | the holder for a name has the name as its class and exactly the "<name>.param." properties as init parameters |
| Jetty.CustomFilterMappings | server/src/main/java/com/datastrato/aurora/server/JettyServer.java:361-374 | the loop adds at most one mapping per configured name (its full meaning is stated by CustomFilterMappingsSpec) |
| Jetty.CustomFilterMappingsAppend | server/src/main/java/com/datastrato/aurora/server/JettyServer.java:361-374 | names are processed in configured order: the filters for a + b are those for a followed by those for b |
| Jetty.CustomFilterMappingsSpec | server/src/main/java/com/datastrato/aurora/server/JettyServer.java:361-374 | one mapping per non-blank name, in order; each has the name as class, exactly the "<name>.param." properties as init parameters, the requested path and every dispatcher type |
| Jetty.BlankNamesAddNothing | server/src/main/java/com/datastrato/aurora/server/JettyServer.java:362-365 | a list of blank names adds no filter |
| JettyServer.StopCalls | server/src/main/java/com/datastrato/aurora/server/JettyServer.java:187-214 | no calls without a server; otherwise exactly pool stop timeout 0, then server stop, then the explicit pool stop, with nothing else; the explicit pool stop is left out exactly when the server's stop threw |
| JettyServer.WithInitParameters | server/src/main/java/com/datastrato/aurora/server/JettyServer.java:366-371 | after one setInitParameter per entry the holder has every entry's value, keeps its other parameters, and has no other keys |
| JettyServer.NewCustomFilterHolder | server/src/main/java/com/datastrato/aurora/server/JettyServer.java:366-371 | the holder built for a name has that name as its class and exactly the "<name>.param." properties as init parameters |
| JettyServer.AppendCustomFilters | server/src/main/java/com/datastrato/aurora/server/JettyServer.java:361-374 | with a context: existing filters kept, followed by the custom filter mappings of the configured names, and no error; without one: a null-pointer error exactly when some name is non-blank |
| JettyServer.JettyServer.constructor | server/src/main/java/com/datastrato/aurora/server/JettyServer.java:61 | a new server object has no server, context, configuration or name |
| JettyServer.JettyServer.Initialize | server/src/main/java/com/datastrato/aurora/server/JettyServer.java:63-151 | the outcome is the HTTPS argument check; configuration and name are stored; the server stored is the one built from them, whatever the outcome; on success the context is the initial one; on failure the old context stays |
| JettyServer.JettyServer.Start | server/src/main/java/com/datastrato/aurora/server/JettyServer.java:153-176 | without a server: "Failed to start <name> web server." and no Jetty call; otherwise Jetty's start is called and a bind failure or any other failure gives that same error |
| JettyServer.JettyServer.Stop | server/src/main/java/com/datastrato/aurora/server/JettyServer.java:187-214 | the server is null afterwards; the Jetty calls are the stop sequence for the old server; a stop without a server changes nothing, so a second stop is a no-op |
| JettyServer.JettyServer.AddServlet | server/src/main/java/com/datastrato/aurora/server/JettyServer.java:216-218 | appends the servlet at the path to the context, changing nothing else; raises a null-pointer error without a context |
| JettyServer.JettyServer.AddFilter | server/src/main/java/com/datastrato/aurora/server/JettyServer.java:220-223 | appends the filter at the path for all dispatcher types; raises a null-pointer error without a context |
| JettyServer.JettyServer.AddCustomFilters | server/src/main/java/com/datastrato/aurora/server/JettyServer.java:361-374 | existing filters are kept and followed by the custom filter mappings of the configured names; without a configuration a null-pointer error; without a context a null-pointer error exactly when some name is non-blank |
| JettyServer.JettyServer.GetPort | server/src/main/java/com/datastrato/aurora/server/JettyServer.java:254-260 | the HTTPS port when HTTPS is configured, else the HTTP port, whenever a configuration is stored (also after stop or a failed initialize), which is the port of the connector initialize added; a null-pointer error before initialize |
| JettyServer.JettyServer.GetThreadPool | server/src/main/java/com/datastrato/aurora/server/JettyServer.java:357-359 | the current server's pool, with the configured max/min threads and work-queue bound, 60000 ms idle timeout and the server name; a null-pointer error without a server |

## Left out

- Jetty itself: socket binding, the TLS handshake, request dispatch, the
  pool's scheduling and admission, and the error handler's output. These
  belong to a foreign library. `Server.start()` is a parameter saying how it
  ends; `Server.stop()` is a parameter saying whether it throws.
- The argument checks inside the libraries are not modelled. For example,
  `LinkedBlockingQueue` rejects a capacity of 0 or less. The pool record is
  built for any values.
- `join()` blocks the caller until the server stops. That is concurrency,
  which this model does not cover.
- The pool's thread factory (`AccessController`, daemon flag, priority,
  uncaught-exception handler) is left out as JVM threading detail. So is the
  connector scheduler's executor; only its name is kept.
- Logging is left out. That includes `start`'s HTTPS advice and its
  bind-failure message, which reports the HTTP port even when HTTPS is used.
- `JettyServerConfig.fromConfig`, `getAllWithPrefix` and the `Config` base
  class are not part of this model. The web-server settings are a plain
  record passed to `Initialize`. `getAllWithPrefix` is a lookup table from
  prefix to properties.
- The semantics of `Get` are an assumption about the `Config` base class:
  convert, then check, with defaults returned unchecked. Every default
  passes its own check (`EntriesWellFormed`).
- Trimming or skipping of keys and values inside `loadFromMap` is not
  modelled.
- The metrics keys are named by constants of `IcebergMetricsManager`, which
  is not part of this model. The key names `iceberg.metrics.store`,
  `iceberg.metrics.store.retain.days` and `iceberg.metrics.queue.capacity`
  are this model's own choice.
- The metrics queue, retention eviction and `MetricsSystem` are not part of
  this model. A metrics system is an opaque registry handle plus a servlet
  handle.
- Entry docs and the `isPublic`/alternative-key settings of entries carry
  no behaviour and are omitted.
- `IcebergRESTServer` (bootstrap, dependency injection, shutdown hook), the
  REST resources, the backend enum and the build scripts are not modelled.
  They only wire collaborators together.
- StringUtils.IsWhitespace: follows `Character.isWhitespace` of JDK 9 and
  later. The build also accepts JDK 8, where U+180E (Mongolian vowel
  separator) counts as whitespace as well; there `isBlank("\u180E")` is
  true, and in the model it is false.
- JavaParsing.ParseInt: accepts ASCII digits only. `Integer.parseInt` also
  accepts other Unicode decimal digits.
- JavaParsing.ParseBoolean: folds ASCII case only. That is all "true"
  needs.
- The servlet context is a value held in the `JettyServer` field. Jetty's
  aliasing of that object by the server's handler collection is recorded as
  the flag `servesContextHandler`.
