/** The embedded web server: a JettyServer object whose fields are assigned
    by initialize, read by start and getPort, extended by addServlet,
    addFilter and addCustomFilters, and cleared by stop. */
module JettyServer {
  import opened Wrappers
  import opened StringUtils
  import opened Jetty

  /** The calls the server makes on the Jetty objects it owns, in order. */
  datatype JettyCall = StartServer | SetThreadPoolStopTimeout(ms: int) | StopServer | StopThreadPool

  /** How Jetty's Server.start() ends: normally, with a BindException (the
      port is in use), or with any other exception. */
  datatype StartResult = Started | BindFailure | OtherFailure

  /** Java's rendering of a possibly null string in a concatenation. */
  function JavaString(s: Option<string>): string {
    if s.Some? then s.value else "null"
  }

  /** The RuntimeException message of a failed start. */
  function StartFailureMessage(serverName: Option<string>): string {
    "Failed to start " + JavaString(serverName) + " web server."
  }

  /** The calls stop makes on a server that exists: the pool's stop timeout
      goes to 0, then the server stops, then the pool stops; an exception
      from the server's stop skips the rest and is swallowed. */
  function StopCalls(server: Option<Server>, serverStopThrows: bool): (calls: seq<JettyCall>)
    ensures server.None? <==> calls == []
    ensures server.Some? ==> |calls| >= 2 && calls[0] == SetThreadPoolStopTimeout(0) && calls[1] == StopServer
    ensures StopThreadPool in calls <==> server.Some? && !serverStopThrows
    ensures |calls| == (if server.None? then 0 else if serverStopThrows then 2 else 3)
    ensures |calls| == 3 ==> calls[2] == StopThreadPool
  {
    if server.None? then []
    else [SetThreadPoolStopTimeout(0), StopServer] + (if serverStopThrows then [] else [StopThreadPool])
  }

  /** A holder whose every init parameter has been set from `entries`, one
      setInitParameter call per entry. */
  method WithInitParameters(holder: FilterHolder, entries: map<string, string>) returns (h: FilterHolder)
    ensures h.source == holder.source
    ensures h.initParameters.Keys == holder.initParameters.Keys + entries.Keys
    ensures forall k | k in entries :: h.initParameters[k] == entries[k]
    ensures forall k | k in holder.initParameters && k !in entries :: h.initParameters[k] == holder.initParameters[k]
    ensures h == holder.(initParameters := holder.initParameters + entries)
  {
    h := holder;
    var pending := entries.Keys;
    while pending != {}
      invariant pending <= entries.Keys
      invariant h.source == holder.source
      invariant h.initParameters.Keys == holder.initParameters.Keys + (entries.Keys - pending)
      invariant forall k | k in entries && k !in pending :: h.initParameters[k] == entries[k]
      invariant forall k | k in holder.initParameters && k !in entries.Keys - pending ::
        h.initParameters[k] == holder.initParameters[k]
      decreases pending
    {
      var k :| k in pending;
      h := h.(initParameters := h.initParameters[k := entries[k]]);
      pending := pending - {k};
    }
    assert h.initParameters == holder.initParameters + entries;
  }

  /** The holder addCustomFilters builds for one name: class name set, then
      one init parameter per property under "<name>.param.". */
  method NewCustomFilterHolder(filterName: string, cfg: JettyServerConfig) returns (holder: FilterHolder)
    ensures holder.source == FilterClass(filterName)
    ensures holder.initParameters == cfg.GetAllWithPrefix(filterName + ".param.")
    ensures holder == CustomFilterHolder(filterName, cfg)
  {
    holder := FilterHolder(FilterClass(filterName), map[]);
    holder := WithInitParameters(holder, cfg.GetAllWithPrefix(ParamPrefix(filterName)));
    assert map[] + cfg.GetAllWithPrefix(ParamPrefix(filterName)) == cfg.GetAllWithPrefix(ParamPrefix(filterName));
  }

  /** The loop of addCustomFilters over a servlet context that may be
      missing: each non-blank name, in order, becomes a filter of that class
      with the init parameters found under "<name>.param.", appended for
      every dispatcher type; a missing context raises NullPointerException
      at the first non-blank name, and blank names are skipped. The filters
      are collected in `filters` and the context is updated once at the
      end. */
  method AppendCustomFilters(handler: Option<ServletContextHandler>, cfg: JettyServerConfig, pathSpec: string)
    returns (result: Option<ServletContextHandler>, r: Outcome<JettyError>)
    ensures handler.None? ==>
      result.None? && (r.Pass? <==> NonBlankNames(cfg.customFilters) == []) && (r.Fail? ==> r.error == NullPointer)
    ensures handler.Some? ==>
      r == Pass &&
      result == Some(handler.value.(filters := handler.value.filters + CustomFilterMappings(cfg.customFilters, cfg, pathSpec)))
  {
    var names := cfg.customFilters;
    ghost var existing := if handler.Some? then handler.value.filters else [];
    var filters: seq<FilterMapping> := if handler.Some? then handler.value.filters else [];
    var i := 0;
    CustomFilterStep(names, 0, cfg, pathSpec);
    while i < |names|
      invariant 0 <= i <= |names|
      invariant filters == existing + CustomFilterMappings(names[..i], cfg, pathSpec)
      invariant handler.None? ==> CustomFilterMappings(names[..i], cfg, pathSpec) == []
    {
      var filterName := names[i];
      CustomFilterStep(names, i, cfg, pathSpec);
      if !IsBlank(filterName) {
        var holder := NewCustomFilterHolder(filterName.value, cfg);
        if handler.None? {
          CustomFilterPrefix(names, i + 1, cfg, pathSpec);
          return None, Fail(NullPointer);
        }
        filters := filters + [FilterMapping(holder, pathSpec, AllDispatcherTypes)];
      }
      i := i + 1;
    }
    assert names[..i] == names;
    CustomFilterPrefix(names, i, cfg, pathSpec);
    result := if handler.Some? then Some(handler.value.(filters := filters)) else None;
    r := Pass;
  }

  class JettyServer {
    var server: Option<Server>
    var servletContextHandler: Option<ServletContextHandler>
    var serverConfig: Option<JettyServerConfig>
    var serverName: Option<string>
    /** Every call made on the Jetty objects so far. */
    ghost var calls: seq<JettyCall>

    /** A server exists only together with the configuration and name it was
        built from, and is the server initialize builds from them; the
        servlet context, once installed, keeps the default servlet on "/"
        first; a server that serves the context has one. */
    ghost predicate Valid()
      reads this
    {
      && (server.Some? ==>
            serverConfig.Some? && serverName.Some? &&
            server.value == InitializedServer(serverConfig.value, serverName.value))
      && (servletContextHandler.Some? ==>
            servletContextHandler.value.contextPath == "/" &&
            |servletContextHandler.value.servlets| > 0 &&
            servletContextHandler.value.servlets[0] == ServletHolder(DefaultServlet, "/"))
      && (server.Some? && server.value.servesContextHandler ==> servletContextHandler.Some?)
    }

    constructor ()
      ensures Valid()
      ensures server == None && servletContextHandler == None && serverConfig == None && serverName == None
      ensures calls == []
    {
      server := None;
      servletContextHandler := None;
      serverConfig := None;
      serverName := None;
      calls := [];
    }

    /** initialize(config, serverName, metricsSystem). The pool and the
        server are built and stored before the HTTPS checks run, so a
        failed check leaves a server without connector. */
    method Initialize(cfg: JettyServerConfig, name: string, metricsSystem: Option<MetricsSystem>)
      returns (r: Outcome<JettyError>)
      requires Valid()
      modifies this
      ensures Valid()
      ensures r == HttpsArgumentCheck(cfg)
      ensures serverConfig == Some(cfg) && serverName == Some(name)
      ensures server == Some(InitializedServer(cfg, name))
      ensures r.Pass? ==> servletContextHandler == Some(InitialContextHandler(metricsSystem))
      ensures r.Fail? ==> servletContextHandler == old(servletContextHandler)
      ensures calls == old(calls)
    {
      serverConfig := Some(cfg);
      serverName := Some(name);
      var threadPool := CreateThreadPool(cfg.minThreads, cfg.maxThreads, cfg.threadPoolWorkQueueSize, name);
      var s := Server(threadPool, true, cfg.stopTimeout, ErrorHandler(true), [], false);
      server := Some(s);
      r := HttpsArgumentCheck(cfg);
      if r.Fail? {
        return;
      }
      if cfg.enableHttps {
        var httpsConnector := CreateHttpsServerConnector(
          cfg.requestHeaderSize, cfg.responseHeaderSize, cfg.host, cfg.httpsPort, cfg.idleTimeout,
          cfg.keyStorePath, cfg.keyStorePassword, cfg.managerPassword, cfg.keyStoreType,
          cfg.tlsProtocol, cfg.supportedAlgorithms, cfg.enableClientAuth,
          cfg.trustStorePath, cfg.trustStorePassword, cfg.trustStoreType, name);
        s := s.(connectors := s.connectors + [httpsConnector]);
      } else {
        var httpConnector := CreateHttpServerConnector(
          cfg.requestHeaderSize, cfg.responseHeaderSize, cfg.host, cfg.httpPort, cfg.idleTimeout, name);
        s := s.(connectors := s.connectors + [httpConnector]);
      }
      server := Some(s);

      var handler := BasicServletContextHandler();
      if metricsSystem.Some? {
        handler := handler.(attributes := handler.attributes[MetricsRegistryAttribute := metricsSystem.value.registry]);
        handler := handler.(servlets := handler.servlets + [ServletHolder(MetricsServlet, "/metrics")]);
        handler := handler.(servlets := handler.servlets +
                              [ServletHolder(ServletInstance(metricsSystem.value.prometheusServlet), "/prometheus/metrics")]);
      }
      servletContextHandler := Some(handler);
      server := Some(s.(servesContextHandler := true));
      r := Pass;
    }

    /** start(): Jetty's start is the given result; any failure, and a call
        before initialize, is reported as the same RuntimeException. */
    method Start(startResult: StartResult) returns (r: Outcome<JettyError>)
      requires Valid()
      modifies this`calls
      ensures Valid()
      ensures old(server).None? ==> r == Fail(RuntimeFailure(StartFailureMessage(serverName))) && calls == old(calls)
      ensures old(server).Some? ==> calls == old(calls) + [StartServer]
      ensures old(server).Some? ==>
        r == (if startResult == Started then Pass else Fail(RuntimeFailure(StartFailureMessage(serverName))))
    {
      if server.None? {
        return Fail(RuntimeFailure(StartFailureMessage(serverName)));
      }
      calls := calls + [StartServer];
      match startResult
      case Started =>
        r := Pass;
      case BindFailure =>
        r := Fail(RuntimeFailure(StartFailureMessage(serverName)));
      case OtherFailure =>
        r := Fail(RuntimeFailure(StartFailureMessage(serverName)));
    }

    /** stop(): with a server, zero the pool's stop timeout, stop the
        server, stop the pool, swallow any exception and drop the server;
        without one, do nothing. A second stop is therefore a no-op. */
    method Stop(serverStopThrows: bool)
      requires Valid()
      modifies this`server, this`calls
      ensures Valid()
      ensures server == None
      ensures calls == old(calls) + StopCalls(old(server), serverStopThrows)
      ensures old(server).None? ==> calls == old(calls)
    {
      if server.Some? {
        calls := calls + [SetThreadPoolStopTimeout(0)];
        calls := calls + [StopServer];
        if !serverStopThrows {
          calls := calls + [StopThreadPool];
        }
        server := None;
      }
    }

    /** addServlet(servlet, pathSpec): appended to the context; before the
        context exists the call raises NullPointerException. */
    method AddServlet(servlet: nat, pathSpec: string) returns (r: Outcome<JettyError>)
      requires Valid()
      modifies this`servletContextHandler
      ensures Valid()
      ensures r.Fail? <==> old(servletContextHandler).None?
      ensures r.Fail? ==> r.error == NullPointer && servletContextHandler == old(servletContextHandler)
      ensures r.Pass? ==>
        var h := old(servletContextHandler).value;
        servletContextHandler == Some(h.(servlets := h.servlets + [ServletHolder(ServletInstance(servlet), pathSpec)]))
    {
      if servletContextHandler.None? {
        return Fail(NullPointer);
      }
      var h := servletContextHandler.value;
      servletContextHandler := Some(h.(servlets := h.servlets + [ServletHolder(ServletInstance(servlet), pathSpec)]));
      r := Pass;
    }

    /** addFilter(filter, pathSpec): appended to the context for every
        dispatcher type; before the context exists the call raises
        NullPointerException. */
    method AddFilter(filter: nat, pathSpec: string) returns (r: Outcome<JettyError>)
      requires Valid()
      modifies this`servletContextHandler
      ensures Valid()
      ensures r.Fail? <==> old(servletContextHandler).None?
      ensures r.Fail? ==> r.error == NullPointer && servletContextHandler == old(servletContextHandler)
      ensures r.Pass? ==>
        var h := old(servletContextHandler).value;
        servletContextHandler ==
          Some(h.(filters := h.filters + [FilterMapping(FilterHolder(FilterInstance(filter), map[]), pathSpec, AllDispatcherTypes)]))
    {
      if servletContextHandler.None? {
        return Fail(NullPointer);
      }
      var h := servletContextHandler.value;
      var mapping := FilterMapping(FilterHolder(FilterInstance(filter), map[]), pathSpec, AllDispatcherTypes);
      servletContextHandler := Some(h.(filters := h.filters + [mapping]));
      r := Pass;
    }

    /** addCustomFilters(pathSpec): for each configured name that is not
        blank, in order, a filter of that class with the init parameters
        found under "<name>.param." is appended to the context. Without a
        configuration the call raises NullPointerException at once; without
        a context it raises it at the first non-blank name. */
    method AddCustomFilters(pathSpec: string) returns (r: Outcome<JettyError>)
      requires Valid()
      modifies this`servletContextHandler
      ensures Valid()
      ensures serverConfig.None? ==> r == Fail(NullPointer) && servletContextHandler == old(servletContextHandler)
      ensures serverConfig.Some? && old(servletContextHandler).None? ==>
        servletContextHandler.None? &&
        (r.Pass? <==> NonBlankNames(serverConfig.value.customFilters) == []) &&
        (r.Fail? ==> r.error == NullPointer)
      ensures serverConfig.Some? && old(servletContextHandler).Some? ==>
        var h := old(servletContextHandler).value;
        r == Pass &&
        servletContextHandler ==
          Some(h.(filters := h.filters + CustomFilterMappings(serverConfig.value.customFilters, serverConfig.value, pathSpec)))
    {
      if serverConfig.None? {
        return Fail(NullPointer);
      }
      var handler;
      handler, r := AppendCustomFilters(servletContextHandler, serverConfig.value, pathSpec);
      servletContextHandler := handler;
    }

    /** getPort(): the HTTPS port with HTTPS enabled, the HTTP port
        otherwise, which is the port of the connector initialize added;
        before initialize the call raises NullPointerException. */
    function GetPort(): (r: Result<int, JettyError>)
      reads this
      requires Valid()
      ensures r.Failure? <==> serverConfig.None?
      ensures r.Failure? ==> r.error == NullPointer
      ensures server.Some? && server.value.connectors != [] ==> r == Success(server.value.connectors[0].port)
      ensures serverConfig.Some? ==> r == Success(ConfiguredPort(serverConfig.value))
    {
      match serverConfig
      case None => Failure(NullPointer)
      case Some(cfg) => Success(ConfiguredPort(cfg))
    }

    /** getThreadPool(): the pool of the current server, built with the
        configured thread bounds and work-queue size and a 60000 ms idle
        timeout; without a server the call raises NullPointerException. */
    function GetThreadPool(): (r: Result<ThreadPool, JettyError>)
      reads this
      requires Valid()
      ensures r.Failure? <==> server.None?
      ensures r.Failure? ==> r.error == NullPointer
      ensures r.Success? ==>
        serverConfig.Some? && serverName.Some? &&
        r.value.maxThreads == serverConfig.value.maxThreads &&
        r.value.minThreads == serverConfig.value.minThreads &&
        r.value.workQueueCapacity == serverConfig.value.threadPoolWorkQueueSize &&
        r.value.idleTimeoutMs == 60000 &&
        r.value.name == serverName.value
    {
      match server
      case None => Failure(NullPointer)
      case Some(s) => Success(s.threadPool)
    }
  }
}
