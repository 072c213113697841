/** The Jetty objects the web server builds, as values: the configuration it
    reads, the thread pool, the connectors, the servlet context with its
    servlets and filters, and the pure steps of initialisation (the HTTPS
    argument checks, the choice of connector, the custom filter chain). */
module Jetty {
  import opened Wrappers
  import opened StringUtils

  const HttpsScheme: string := "https"
  const HttpProtocol: string := "http/1.1"
  /** The idle timeout of every pool thread, in milliseconds. */
  const ThreadPoolIdleTimeoutMs: int := 60000
  /** The servlet-context attribute the metrics servlet reads its registry from. */
  const MetricsRegistryAttribute: string := "com.codahale.metrics.servlets.MetricsServlet.registry"

  const KeyStorePathRequired: string := "If enables https, must set keyStorePath"
  const KeyStorePasswordRequired: string := "If enables https, must set keyStorePassword"
  const ManagerPasswordRequired: string := "If enables https, must set managerPassword"
  const TrustStorePathRequired: string := "If enables the authentication of the client, must set trustStorePath"
  const TrustStorePasswordRequired: string := "If enables the authentication of the client, must set trustStorePassword"

  /** The web-server settings, a plain record. `propertiesWithPrefix` is the
      lookup behind getAllWithPrefix: the properties found under a prefix,
      with the prefix taken off their keys. */
  datatype JettyServerConfig = JettyServerConfig(
    host: string,
    httpPort: int,
    httpsPort: int,
    minThreads: int,
    maxThreads: int,
    threadPoolWorkQueueSize: int,
    stopTimeout: int,
    idleTimeout: int,
    requestHeaderSize: int,
    responseHeaderSize: int,
    enableHttps: bool,
    keyStorePath: Option<string>,
    keyStorePassword: Option<string>,
    managerPassword: Option<string>,
    keyStoreType: Option<string>,
    tlsProtocol: Option<string>,
    supportedAlgorithms: set<string>,
    enableClientAuth: bool,
    trustStorePath: Option<string>,
    trustStorePassword: Option<string>,
    trustStoreType: Option<string>,
    customFilters: seq<Option<string>>,
    propertiesWithPrefix: map<string, map<string, string>>)
  {
    /** getAllWithPrefix(prefix). */
    function GetAllWithPrefix(prefix: string): map<string, string> {
      if prefix in propertiesWithPrefix then propertiesWithPrefix[prefix] else map[]
    }
  }

  /** A QueuedThreadPool over a bounded LinkedBlockingQueue. */
  datatype ThreadPool = ThreadPool(
    maxThreads: int,
    minThreads: int,
    idleTimeoutMs: int,
    workQueueCapacity: int,
    name: string)

  /** HttpConfiguration. `secureScheme` and `securePort` are None when left
      at Jetty's defaults. */
  datatype HttpConfig = HttpConfig(
    requestHeaderSize: int,
    responseHeaderSize: int,
    sendServerVersion: bool,
    idleTimeout: int,
    secureScheme: Option<string>,
    securePort: Option<int>,
    secureRequestCustomizer: bool)

  datatype KeyStore = KeyStore(path: Option<string>, password: Option<string>,
                               managerPassword: Option<string>, storeType: Option<string>)

  datatype TrustStore = TrustStore(path: Option<string>, password: Option<string>, storeType: Option<string>)

  /** SslContextFactory.Server. A None field was never set, so Jetty's
      default applies (its default protocol, its default cipher suites, no
      trust store). */
  datatype SslContext = SslContext(
    keyStore: KeyStore,
    protocol: Option<string>,
    includeCipherSuites: Option<set<string>>,
    needClientAuth: bool,
    trustStore: Option<TrustStore>)

  /** A ServerConnector: plain HTTP, or TLS in front of HTTP/1.1. */
  datatype Connector =
    | Http(host: string, port: int, httpConfig: HttpConfig, schedulerName: string, reuseAddress: bool)
    | Https(host: string, port: int, httpConfig: HttpConfig, ssl: SslContext, nextProtocol: string,
            schedulerName: string, reuseAddress: bool)

  datatype ErrorHandler = ErrorHandler(showStacks: bool)

  /** The Jetty Server. `servesContextHandler` records that its handler
      collection holds the web server's servlet context. */
  datatype Server = Server(
    threadPool: ThreadPool,
    stopAtShutdown: bool,
    stopTimeout: int,
    errorHandler: ErrorHandler,
    connectors: seq<Connector>,
    servesContextHandler: bool)

  /** The metrics system handed to initialize: its registry and its
      Prometheus servlet, both opaque handles. */
  datatype MetricsSystem = MetricsSystem(registry: nat, prometheusServlet: nat)

  datatype Servlet = DefaultServlet | MetricsServlet | ServletInstance(id: nat)

  datatype ServletHolder = ServletHolder(servlet: Servlet, pathSpec: string)

  /** A filter given as an object, or by class name (the custom filters). */
  datatype FilterSource = FilterInstance(id: nat) | FilterClass(className: string)

  datatype FilterHolder = FilterHolder(source: FilterSource, initParameters: map<string, string>)

  datatype DispatcherType = Forward | Include | Request | Async | Error

  const AllDispatcherTypes: set<DispatcherType> := {Forward, Include, Request, Async, Error}

  datatype FilterMapping = FilterMapping(holder: FilterHolder, pathSpec: string, dispatcherTypes: set<DispatcherType>)

  /** ServletContextHandler: the servlets and filters in registration order. */
  datatype ServletContextHandler = ServletContextHandler(
    contextPath: string,
    servlets: seq<ServletHolder>,
    filters: seq<FilterMapping>,
    attributes: map<string, nat>)

  datatype JettyError =
    | IllegalArgument(message: string)
    | NullPointer
    | RuntimeFailure(message: string)

  /** createThreadPool: a pool between the given thread counts whose idle
      threads retire after a fixed minute, queueing at most workQueueSize
      jobs, named after the server. */
  function CreateThreadPool(minThreads: int, maxThreads: int, workQueueSize: int, serverName: string): (p: ThreadPool)
    ensures p.minThreads == minThreads && p.maxThreads == maxThreads
    ensures p.idleTimeoutMs == 60000 && p.workQueueCapacity == workQueueSize && p.name == serverName
  {
    ThreadPool(maxThreads, minThreads, ThreadPoolIdleTimeoutMs, workQueueSize, serverName)
  }

  /** The server as initialize builds it, before any connector is added. */
  function NewServer(cfg: JettyServerConfig, serverName: string): Server {
    Server(CreateThreadPool(cfg.minThreads, cfg.maxThreads, cfg.threadPoolWorkQueueSize, serverName),
           true, cfg.stopTimeout, ErrorHandler(true), [], false)
  }

  /** The Preconditions.checkArgument calls initialize makes when HTTPS is
      enabled, in their order: the first that fails raises its message. */
  function HttpsArgumentCheck(cfg: JettyServerConfig): (r: Outcome<JettyError>)
    ensures r.Pass? <==>
      !cfg.enableHttps ||
      (IsNotBlank(cfg.keyStorePath) && IsNotBlank(cfg.keyStorePassword) && IsNotBlank(cfg.managerPassword) &&
       (cfg.enableClientAuth ==> IsNotBlank(cfg.trustStorePath) && IsNotBlank(cfg.trustStorePassword)))
    ensures cfg.enableHttps && IsBlank(cfg.keyStorePath) ==> r == Fail(IllegalArgument(KeyStorePathRequired))
    ensures cfg.enableHttps && IsNotBlank(cfg.keyStorePath) && IsBlank(cfg.keyStorePassword) ==>
      r == Fail(IllegalArgument(KeyStorePasswordRequired))
    ensures cfg.enableHttps && IsNotBlank(cfg.keyStorePath) && IsNotBlank(cfg.keyStorePassword) &&
            IsBlank(cfg.managerPassword) ==>
      r == Fail(IllegalArgument(ManagerPasswordRequired))
    ensures cfg.enableHttps && IsNotBlank(cfg.keyStorePath) && IsNotBlank(cfg.keyStorePassword) &&
            IsNotBlank(cfg.managerPassword) && cfg.enableClientAuth && IsBlank(cfg.trustStorePath) ==>
      r == Fail(IllegalArgument(TrustStorePathRequired))
    ensures cfg.enableHttps && IsNotBlank(cfg.keyStorePath) && IsNotBlank(cfg.keyStorePassword) &&
            IsNotBlank(cfg.managerPassword) && cfg.enableClientAuth && IsNotBlank(cfg.trustStorePath) &&
            IsBlank(cfg.trustStorePassword) ==>
      r == Fail(IllegalArgument(TrustStorePasswordRequired))
    ensures r.Fail? ==>
      cfg.enableHttps && r.error.IllegalArgument? &&
      r.error.message in {KeyStorePathRequired, KeyStorePasswordRequired, ManagerPasswordRequired,
                          TrustStorePathRequired, TrustStorePasswordRequired}
    ensures r.Fail? && r.error.IllegalArgument? &&
            r.error.message in {TrustStorePathRequired, TrustStorePasswordRequired} ==>
      cfg.enableClientAuth
  {
    if !cfg.enableHttps then Pass
    else if IsBlank(cfg.keyStorePath) then Fail(IllegalArgument(KeyStorePathRequired))
    else if IsBlank(cfg.keyStorePassword) then Fail(IllegalArgument(KeyStorePasswordRequired))
    else if IsBlank(cfg.managerPassword) then Fail(IllegalArgument(ManagerPasswordRequired))
    else if cfg.enableClientAuth && IsBlank(cfg.trustStorePath) then Fail(IllegalArgument(TrustStorePathRequired))
    else if cfg.enableClientAuth && IsBlank(cfg.trustStorePassword) then Fail(IllegalArgument(TrustStorePasswordRequired))
    else Pass
  }

  /** The name of the scheduler createServerConnector gives each connector. */
  function SchedulerName(serverName: string): string {
    serverName + "-webserver-JettyScheduler"
  }

  /** createHttpServerConnector: a plain connector with no secure
      scheme, secure port or TLS customiser. */
  function CreateHttpServerConnector(
    reqHeaderSize: int, respHeaderSize: int, host: string, port: int, idleTimeout: int, serverName: string): (c: Connector)
    ensures c.Http? && c.host == host && c.port == port && c.reuseAddress
    ensures c.httpConfig.secureScheme.None? && c.httpConfig.securePort.None? && !c.httpConfig.secureRequestCustomizer
    ensures c.httpConfig.sendServerVersion && c.httpConfig.idleTimeout == idleTimeout
  {
    Http(host, port, HttpConfig(reqHeaderSize, respHeaderSize, true, idleTimeout, None, None, false),
         SchedulerName(serverName), true)
  }

  /** createHttpsServerConnector: the protocol is pinned only when one is
      given, cipher suites are restricted only to a non-empty set, and the
      client certificate and trust store are demanded only with client
      authentication. */
  function CreateHttpsServerConnector(
    reqHeaderSize: int, respHeaderSize: int, host: string, port: int, idleTimeout: int,
    keyStorePath: Option<string>, keyStorePassword: Option<string>, keyManagerPassword: Option<string>,
    keyStoreType: Option<string>, tlsProtocol: Option<string>, supportedAlgorithms: set<string>,
    isEnableClientAuth: bool, trustStorePath: Option<string>, trustStorePassword: Option<string>,
    trustStoreType: Option<string>, serverName: string): (c: Connector)
    ensures c.Https? && c.host == host && c.port == port && c.httpConfig.securePort == Some(port)
    ensures c.ssl.keyStore == KeyStore(keyStorePath, keyStorePassword, keyManagerPassword, keyStoreType)
    ensures c.ssl.protocol == tlsProtocol
    ensures c.ssl.includeCipherSuites.Some? <==> supportedAlgorithms != {}
    ensures c.ssl.includeCipherSuites.Some? ==> c.ssl.includeCipherSuites.value == supportedAlgorithms
    ensures c.ssl.needClientAuth == isEnableClientAuth
    ensures c.ssl.trustStore.Some? <==> isEnableClientAuth
    ensures c.ssl.trustStore.Some? ==> c.ssl.trustStore.value == TrustStore(trustStorePath, trustStorePassword, trustStoreType)
  {
    var httpConfig := HttpConfig(reqHeaderSize, respHeaderSize, true, idleTimeout, Some(HttpsScheme), Some(port), true);
    var ssl := SslContext(
      KeyStore(keyStorePath, keyStorePassword, keyManagerPassword, keyStoreType),
      tlsProtocol,
      if supportedAlgorithms != {} then Some(supportedAlgorithms) else None,
      isEnableClientAuth,
      if isEnableClientAuth then Some(TrustStore(trustStorePath, trustStorePassword, trustStoreType)) else None);
    Https(host, port, httpConfig, ssl, HttpProtocol, SchedulerName(serverName), true)
  }

  /** getPort's answer for a configuration. */
  function ConfiguredPort(cfg: JettyServerConfig): int {
    if cfg.enableHttps then cfg.httpsPort else cfg.httpPort
  }

  /** The connector initialize adds: HTTPS exactly when HTTPS is enabled,
      listening on the port getPort reports. */
  function ChooseConnector(cfg: JettyServerConfig, serverName: string): (c: Connector)
    ensures c.Https? <==> cfg.enableHttps
    ensures c.port == ConfiguredPort(cfg) && c.host == cfg.host
    ensures c.httpConfig.requestHeaderSize == cfg.requestHeaderSize
    ensures c.httpConfig.responseHeaderSize == cfg.responseHeaderSize
    ensures c.httpConfig.idleTimeout == cfg.idleTimeout
    ensures c.reuseAddress && c.schedulerName == SchedulerName(serverName)
    ensures c.Https? ==> c.ssl.needClientAuth == cfg.enableClientAuth && c.ssl.protocol == cfg.tlsProtocol
  {
    if cfg.enableHttps then
      CreateHttpsServerConnector(
        cfg.requestHeaderSize, cfg.responseHeaderSize, cfg.host, cfg.httpsPort, cfg.idleTimeout,
        cfg.keyStorePath, cfg.keyStorePassword, cfg.managerPassword, cfg.keyStoreType,
        cfg.tlsProtocol, cfg.supportedAlgorithms, cfg.enableClientAuth,
        cfg.trustStorePath, cfg.trustStorePassword, cfg.trustStoreType, serverName)
    else
      CreateHttpServerConnector(
        cfg.requestHeaderSize, cfg.responseHeaderSize, cfg.host, cfg.httpPort, cfg.idleTimeout, serverName)
  }

  /** An HTTPS connector whose key material, and with client authentication
      whose trust material, is set and not blank. */
  predicate HasTlsMaterial(c: Connector) {
    c.Https? ==>
      IsNotBlank(c.ssl.keyStore.path) && IsNotBlank(c.ssl.keyStore.password) &&
      IsNotBlank(c.ssl.keyStore.managerPassword) &&
      (c.ssl.needClientAuth ==>
         c.ssl.trustStore.Some? && IsNotBlank(c.ssl.trustStore.value.path) &&
         IsNotBlank(c.ssl.trustStore.value.password))
  }

  /** The server initialize leaves behind: built from the configuration's
      pool and stop settings; with exactly one connector and the servlet
      context when the HTTPS checks pass, with neither when they fail. */
  function InitializedServer(cfg: JettyServerConfig, serverName: string): (s: Server)
    ensures s.threadPool.maxThreads == cfg.maxThreads && s.threadPool.minThreads == cfg.minThreads
    ensures s.threadPool.idleTimeoutMs == 60000 && s.threadPool.workQueueCapacity == cfg.threadPoolWorkQueueSize
    ensures s.threadPool.name == serverName
    ensures s.stopTimeout == cfg.stopTimeout && s.stopAtShutdown && s.errorHandler.showStacks
    ensures |s.connectors| == (if HttpsArgumentCheck(cfg).Pass? then 1 else 0)
    ensures HttpsArgumentCheck(cfg).Pass? ==> s.connectors == [ChooseConnector(cfg, serverName)]
    ensures s.servesContextHandler <==> HttpsArgumentCheck(cfg).Pass?
    ensures forall c <- s.connectors :: HasTlsMaterial(c) && c.port == ConfiguredPort(cfg)
  {
    var s := NewServer(cfg, serverName);
    if HttpsArgumentCheck(cfg).Fail? then s
    else s.(connectors := s.connectors + [ChooseConnector(cfg, serverName)], servesContextHandler := true)
  }

  /** Without client authentication the trust-store settings are neither
      checked nor used. */
  lemma TrustStoreIgnoredWithoutClientAuth(cfg: JettyServerConfig, serverName: string,
                                           path: Option<string>, password: Option<string>, storeType: Option<string>)
    requires !cfg.enableClientAuth
    ensures var other := cfg.(trustStorePath := path, trustStorePassword := password, trustStoreType := storeType);
      HttpsArgumentCheck(other) == HttpsArgumentCheck(cfg) &&
      ChooseConnector(other, serverName) == ChooseConnector(cfg, serverName) &&
      InitializedServer(other, serverName) == InitializedServer(cfg, serverName)
  {
  }

  /** Over plain HTTP no TLS setting is checked or used. */
  lemma TlsSettingsIgnoredOverHttp(cfg: JettyServerConfig, serverName: string, tls: JettyServerConfig)
    requires !cfg.enableHttps
    ensures var other := cfg.(keyStorePath := tls.keyStorePath, keyStorePassword := tls.keyStorePassword,
                              managerPassword := tls.managerPassword, keyStoreType := tls.keyStoreType,
                              tlsProtocol := tls.tlsProtocol, supportedAlgorithms := tls.supportedAlgorithms,
                              enableClientAuth := tls.enableClientAuth, trustStorePath := tls.trustStorePath,
                              trustStorePassword := tls.trustStorePassword, trustStoreType := tls.trustStoreType,
                              httpsPort := tls.httpsPort);
      HttpsArgumentCheck(other) == Pass &&
      InitializedServer(other, serverName) == InitializedServer(cfg, serverName)
  {
  }

  /** initializeBasicServletContextHandler: a fresh context at "/" serving
      only the default servlet, with no filters or attributes. */
  function BasicServletContextHandler(): (h: ServletContextHandler)
    ensures h.contextPath == "/" && h.servlets == [ServletHolder(DefaultServlet, "/")]
    ensures h.filters == [] && h.attributes == map[]
  {
    ServletContextHandler("/", [ServletHolder(DefaultServlet, "/")], [], map[])
  }

  function PathSpecs(servlets: seq<ServletHolder>): (paths: seq<string>)
    ensures |paths| == |servlets|
    ensures forall i | 0 <= i < |servlets| :: paths[i] == servlets[i].pathSpec
  {
    seq(|servlets|, i requires 0 <= i < |servlets| => servlets[i].pathSpec)
  }

  /** The servlet context initialize installs: the default servlet on "/",
      then, only when a metrics system is given, the metrics servlet on
      "/metrics" reading the system's registry and the Prometheus servlet
      on "/prometheus/metrics". */
  function InitialContextHandler(metricsSystem: Option<MetricsSystem>): (h: ServletContextHandler)
    ensures h.contextPath == "/" && h.filters == []
    ensures |h.servlets| > 0 && h.servlets[0] == ServletHolder(DefaultServlet, "/")
    ensures "/metrics" in PathSpecs(h.servlets) <==> metricsSystem.Some?
    ensures "/prometheus/metrics" in PathSpecs(h.servlets) <==> metricsSystem.Some?
    ensures MetricsRegistryAttribute in h.attributes <==> metricsSystem.Some?
    ensures metricsSystem.None? ==> h == BasicServletContextHandler()
    ensures metricsSystem.Some? ==>
      h.attributes[MetricsRegistryAttribute] == metricsSystem.value.registry &&
      h.servlets == [ServletHolder(DefaultServlet, "/"), ServletHolder(MetricsServlet, "/metrics"),
                     ServletHolder(ServletInstance(metricsSystem.value.prometheusServlet), "/prometheus/metrics")]
  {
    var h := BasicServletContextHandler();
    match metricsSystem
    case None => h
    case Some(m) =>
      var h := h.(attributes := h.attributes[MetricsRegistryAttribute := m.registry]);
      var h := h.(servlets := h.servlets + [ServletHolder(MetricsServlet, "/metrics")]);
      var h := h.(servlets := h.servlets + [ServletHolder(ServletInstance(m.prometheusServlet), "/prometheus/metrics")]);
      assert PathSpecs(h.servlets) == ["/", "/metrics", "/prometheus/metrics"];
      h
  }

  /** The prefix under which a custom filter's init parameters are
      configured: "<name>.param.". */
  function ParamPrefix(filterName: string): string {
    filterName + ".param."
  }

  /** The holder addCustomFilters builds for one filter name. */
  function CustomFilterHolder(filterName: string, cfg: JettyServerConfig): (h: FilterHolder)
    ensures h.source == FilterClass(filterName)
    ensures h.initParameters == cfg.GetAllWithPrefix(filterName + ".param.")
  {
    FilterHolder(FilterClass(filterName), cfg.GetAllWithPrefix(ParamPrefix(filterName)))
  }

  /** The configured filter names that are not blank, in order. */
  function NonBlankNames(names: seq<Option<string>>): (r: seq<string>)
    ensures |r| <= |names|
  {
    if names == [] then []
    else (if IsBlank(names[0]) then [] else [names[0].value]) + NonBlankNames(names[1..])
  }

  /** Every name kept is not blank, and every name kept is configured. */
  lemma {:induction false} NonBlankNamesAreNotBlank(names: seq<Option<string>>)
    ensures forall k | 0 <= k < |NonBlankNames(names)| ::
      IsNotBlank(Some(NonBlankNames(names)[k])) && Some(NonBlankNames(names)[k]) in names
  {
    if names != [] {
      NonBlankNamesAreNotBlank(names[1..]);
      var head := if IsBlank(names[0]) then [] else [names[0].value];
      assert NonBlankNames(names) == head + NonBlankNames(names[1..]);
      forall k | 0 <= k < |NonBlankNames(names)|
        ensures IsNotBlank(Some(NonBlankNames(names)[k])) && Some(NonBlankNames(names)[k]) in names
      {
        if k >= |head| {
          assert NonBlankNames(names)[k] == NonBlankNames(names[1..])[k - |head|];
          assert Some(NonBlankNames(names)[k]) in names[1..];
        }
      }
    }
  }

  /** The filter mappings addCustomFilters appends for the given names, in
      the order the names are processed. */
  function CustomFilterMappings(names: seq<Option<string>>, cfg: JettyServerConfig, pathSpec: string): (r: seq<FilterMapping>)
    ensures |r| <= |names|
  {
    if names == [] then []
    else
      var last := names[|names| - 1];
      CustomFilterMappings(names[..|names| - 1], cfg, pathSpec) +
      (if IsBlank(last) then [] else [FilterMapping(CustomFilterHolder(last.value, cfg), pathSpec, AllDispatcherTypes)])
  }

  lemma {:induction false} NonBlankNamesAppend(a: seq<Option<string>>, b: seq<Option<string>>)
    ensures NonBlankNames(a + b) == NonBlankNames(a) + NonBlankNames(b)
  {
    if a == [] {
      assert a + b == b;
    } else {
      assert (a + b)[0] == a[0];
      assert (a + b)[1..] == a[1..] + b;
      NonBlankNamesAppend(a[1..], b);
    }
  }

  /** Every non-blank configured name is kept, in place: after the names kept
      from before it and before those kept from after it. */
  lemma {:induction false} NonBlankNamesKeepsEvery(names: seq<Option<string>>, i: nat)
    requires i < |names| && IsNotBlank(names[i])
    ensures NonBlankNames(names) == NonBlankNames(names[..i]) + [names[i].value] + NonBlankNames(names[i + 1..])
  {
    assert names == names[..i] + ([names[i]] + names[i + 1..]);
    NonBlankNamesAppend(names[..i], [names[i]] + names[i + 1..]);
    NonBlankNamesAppend([names[i]], names[i + 1..]);
    assert NonBlankNames([names[i]]) == [names[i].value] by {
      assert [names[i]][1..] == [];
    }
  }

  /** The names processed one at a time in configuration order: the custom
      filters for a + b are those for a followed by those for b. */
  lemma {:induction false} CustomFilterMappingsAppend(a: seq<Option<string>>, b: seq<Option<string>>,
                                                      cfg: JettyServerConfig, pathSpec: string)
    ensures CustomFilterMappings(a + b, cfg, pathSpec) ==
            CustomFilterMappings(a, cfg, pathSpec) + CustomFilterMappings(b, cfg, pathSpec)
    decreases |b|
  {
    if b == [] {
      assert a + b == a;
    } else {
      var ab := a + b;
      assert ab[..|ab| - 1] == a + b[..|b| - 1];
      assert ab[|ab| - 1] == b[|b| - 1];
      CustomFilterMappingsAppend(a, b[..|b| - 1], cfg, pathSpec);
    }
  }

  /** addCustomFilters appends one mapping per non-blank name, in order, for
      the requested path and every dispatcher type, whose class is the name
      and whose init parameters are exactly the properties under
      "<name>.param.". */
  lemma {:induction false} CustomFilterMappingsSpec(names: seq<Option<string>>, cfg: JettyServerConfig, pathSpec: string)
    ensures var ms := CustomFilterMappings(names, cfg, pathSpec);
      var ns := NonBlankNames(names);
      |ms| == |ns| &&
      forall k | 0 <= k < |ms| ::
        ms[k] == FilterMapping(FilterHolder(FilterClass(ns[k]), cfg.GetAllWithPrefix(ns[k] + ".param.")),
                               pathSpec, AllDispatcherTypes)
  {
    if names != [] {
      var init := names[..|names| - 1];
      var last := names[|names| - 1];
      assert names == init + [last];
      NonBlankNamesAppend(init, [last]);
      CustomFilterMappingsSpec(init, cfg, pathSpec);
    }
  }

  /** One step of addCustomFilters' loop: processing the name at index i
      extends the mappings built so far by that name's share. The case
      i == 0 states the start, where nothing is built yet. */
  lemma CustomFilterStep(names: seq<Option<string>>, i: nat, cfg: JettyServerConfig, pathSpec: string)
    requires i <= |names|
    ensures names[..0] == [] && CustomFilterMappings([], cfg, pathSpec) == []
    ensures i < |names| ==>
      CustomFilterMappings(names[..i + 1], cfg, pathSpec) ==
        CustomFilterMappings(names[..i], cfg, pathSpec) +
        (if IsBlank(names[i]) then []
         else [FilterMapping(CustomFilterHolder(names[i].value, cfg), pathSpec, AllDispatcherTypes)])
  {
    if i < |names| {
      assert names[..i + 1][..i] == names[..i];
    }
  }

  /** A filter built from the first i names means some name is not blank;
      over all the names, no filter is built exactly when none is non-blank. */
  lemma CustomFilterPrefix(names: seq<Option<string>>, i: nat, cfg: JettyServerConfig, pathSpec: string)
    requires i <= |names|
    ensures CustomFilterMappings(names[..i], cfg, pathSpec) != [] ==> NonBlankNames(names) != []
    ensures i == |names| ==> (CustomFilterMappings(names[..i], cfg, pathSpec) == [] <==> NonBlankNames(names) == [])
  {
    assert names == names[..i] + names[i..];
    CustomFilterMappingsAppend(names[..i], names[i..], cfg, pathSpec);
    CustomFilterMappingsSpec(names, cfg, pathSpec);
  }

  /** Blank names contribute nothing. */
  lemma BlankNamesAddNothing(names: seq<Option<string>>, cfg: JettyServerConfig, pathSpec: string)
    requires forall i | 0 <= i < |names| :: IsBlank(names[i])
    ensures NonBlankNames(names) == [] && CustomFilterMappings(names, cfg, pathSpec) == []
  {
    CustomFilterMappingsSpec(names, cfg, pathSpec);
    NonBlankNamesNone(names);
  }

  lemma {:induction false} NonBlankNamesNone(names: seq<Option<string>>)
    ensures NonBlankNames(names) == [] <==> forall i | 0 <= i < |names| :: IsBlank(names[i])
  {
    if names != [] {
      NonBlankNamesNone(names[1..]);
      assert forall i | 1 <= i < |names| :: names[i] == names[1..][i - 1];
    }
  }
}
