/**
 * The start/stop controller of the midway mock server: it resolves the
 * options, builds the Hapi server with its connections, installs routes and
 * request-lifecycle extensions once per running window, and stops the
 * server.
 */
module ServerController {
  import opened Wrappers
  import opened JsValue
  import opened Config
  import opened Hapi

  /** What the certificate generator hands its callback: an error value and the TLS material. */
  datatype CertResult = CertResult(err: Value, tls: Option<Bundle>)

  /**
   * A key of the per-session URL call-count table. The table is kept outside
   * this file and is only ever reset here, so this key shape is an
   * assumption of the model: only the reset is observed.
   */
  datatype CallKey = CallKey(session: string, url: string)

  /** How the stop callback is invoked. */
  datatype CallbackCall = NotCalled | CalledWithError(err: Value) | CalledWithNothing

  /**
   * The connections `createHapiServer` adds, in order: plain HTTP on the
   * port, always first and without TLS, and HTTPS with the certificate
   * material exactly when the HTTPS port is truthy.
   */
  function ConnectionPlan(port: Value, httpsPort: Value, tls: Option<Bundle>): (plan: seq<Connection>)
    ensures |plan| == (if Truthy(httpsPort) then 2 else 1)
    ensures plan[0] == Connection("http", port, None)
    ensures (exists c :: c in plan && c.labels == "https") <==> Truthy(httpsPort)
    ensures forall c :: c in plan && c.labels == "https" ==> c == Connection("https", httpsPort, tls)
  {
    var http := Connection("http", port, None);
    if Truthy(httpsPort) then [http, Connection("https", httpsPort, tls)] else [http]
  }

  /**
   * The extensions the first start of a running window registers on its
   * server: the response handler after every handler, then, only with
   * sessions, the request handler on every incoming request.
   */
  function InstalledExtensions(sessions: Value): (exts: seq<Extension>)
    ensures |exts| == (if Truthy(sessions) then 2 else 1)
    ensures exts[0] == Extension(OnPostHandler, ResponseHandler)
    ensures Extension(OnRequest, RequestHandler) in exts <==> Truthy(sessions)
  {
    [Extension(OnPostHandler, ResponseHandler)] +
    (if Truthy(sessions) then [Extension(OnRequest, RequestHandler)] else [])
  }

  /**
   * The stop callback gets the error when shutdown reports a truthy one,
   * no argument otherwise, and nothing happens without a callback.
   */
  function StopCallback(hasCallback: bool, err: Value): (call: CallbackCall)
    ensures call == NotCalled <==> !hasCallback
    ensures call.CalledWithError? <==> hasCallback && Truthy(err)
    ensures call.CalledWithError? ==> call.err == err
  {
    if Truthy(err) && hasCallback then CalledWithError(err)
    else if hasCallback then CalledWithNothing
    else NotCalled
  }

  /**
   * Creates the server and adds its connections. With an HTTPS port both
   * connections are added inside the certificate callback, whose error is
   * ignored: the HTTPS connection gets whatever TLS material came back.
   */
  method CreateHapiServer(opts: Options, genCerts: Value -> CertResult) returns (server: Server)
    ensures fresh(server)
    ensures server.connections == ConnectionPlan(opts.port, opts.httpsPort, genCerts(opts.resolvedPath).tls)
    ensures server.extensions == [] && server.stopTimeouts == []
  {
    server := new Server();
    if Truthy(opts.httpsPort) {
      var certs := genCerts(opts.resolvedPath);
      server.AddConnection(Connection("http", opts.port, None));
      server.AddConnection(Connection("https", opts.httpsPort, certs.tls));
    } else {
      server.AddConnection(Connection("http", opts.port, None));
    }
  }

  /**
   * The process-wide server state: the running flag and the properties of
   * the running server, how often the base API routes and the session
   * routes were installed, the URL call-count table and the metrics
   * settings.
   */
  class Controller {
    var running: bool
    var properties: Options?
    var baseApiInstalls: nat
    var sessionRouteInstalls: nat
    var callCounts: map<CallKey, nat>
    var metricsDbUrl: Value
    var metricsEnabled: bool
    /** How many running windows a stop has closed. */
    ghost var closedWindows: nat

    /** The base APIs are installed exactly once per running window, session routes at most once. */
    ghost predicate Valid()
      reads this
    {
      && baseApiInstalls == closedWindows + (if running then 1 else 0)
      && sessionRouteInstalls <= baseApiInstalls
    }

    constructor ()
      ensures Valid() && !running && properties == null
      ensures baseApiInstalls == 0 && sessionRouteInstalls == 0 && callCounts == map[]
      ensures metricsDbUrl == Undefined && !metricsEnabled
    {
      running, properties := false, null;
      baseApiInstalls, sessionRouteInstalls, callCounts := 0, 0, map[];
      metricsDbUrl, metricsEnabled := Undefined, false;
      closedWindows := 0;
    }

    /**
     * The running guard. The first call of a window sets the flag, keeps the
     * options, installs the base APIs, registers the extensions on the
     * server if there is one, installs the session routes when sessions is
     * truthy and empties the call-count table. While running, a call
     * changes nothing.
     */
    method AddServerRoutesAndSessions(opts: Options, server: Server?)
      requires Valid()
      modifies this, server
      ensures Valid()
      ensures old(running) ==> unchanged(this) && (server != null ==> unchanged(server))
      ensures !old(running) ==>
        && running && properties == opts
        && baseApiInstalls == old(baseApiInstalls) + 1
        && sessionRouteInstalls == old(sessionRouteInstalls) + (if Truthy(opts.sessions) then 1 else 0)
        && callCounts == map[]
        && metricsDbUrl == old(metricsDbUrl) && metricsEnabled == old(metricsEnabled)
        && closedWindows == old(closedWindows)
      ensures !old(running) && server != null ==>
        && server.extensions == old(server.extensions) + InstalledExtensions(opts.sessions)
        && server.connections == old(server.connections)
        && server.stopTimeouts == old(server.stopTimeouts)
    {
      if !running {
        running := true;
        properties := opts;
        baseApiInstalls := baseApiInstalls + 1;
        if server != null {
          server.Ext(OnPostHandler, ResponseHandler);
        }
        if Truthy(opts.sessions) {
          if server != null {
            server.Ext(OnRequest, RequestHandler);
          }
          sessionRouteInstalls := sessionRouteInstalls + 1;
        }
        callCounts := map[];
      }
    }

    /**
     * Clears the running flag first, whatever the shutdown reports, asks
     * the server to stop with a zero timeout, and hands the reported error
     * `err` to the callback.
     */
    method Stop(server: Server, hasCallback: bool, err: Value) returns (call: CallbackCall)
      requires Valid()
      modifies this, server
      ensures Valid() && !running
      ensures closedWindows == old(closedWindows) + (if old(running) then 1 else 0)
      ensures properties == old(properties) && baseApiInstalls == old(baseApiInstalls)
      ensures sessionRouteInstalls == old(sessionRouteInstalls) && callCounts == old(callCounts)
      ensures metricsDbUrl == old(metricsDbUrl) && metricsEnabled == old(metricsEnabled)
      ensures server.stopTimeouts == old(server.stopTimeouts) + [0]
      ensures server.connections == old(server.connections) && server.extensions == old(server.extensions)
      ensures call == StopCallback(hasCallback, err)
    {
      if running {
        closedWindows := closedWindows + 1;
      }
      running := false;
      server.Stop(0);
      if Truthy(err) {
        if hasCallback {
          return CalledWithError(err);
        }
      }
      if hasCallback {
        return CalledWithNothing;
      }
      return NotCalled;
    }

    /**
     * `start` up to the plugin runner: resolves the options in place (a
     * missing options object becomes a fresh `{}`), enables metrics when
     * asked to, creates the server and runs the guard on it. A non-string
     * host throws before any of the later steps.
     */
    method Start(startOptions: Options?, argv: Argv, env: Env, dirExists: Value -> bool,
                 genCerts: Value -> CertResult)
      returns (opts: Options, server: Server?, thrown: Option<StartError>)
      requires Valid()
      modifies this, startOptions
      ensures Valid()
      ensures startOptions != null ==> opts == startOptions
      ensures startOptions == null ==> fresh(opts)
      ensures var before := if startOptions != null then old(startOptions.Snapshot()) else EmptyFields;
        var r := ResolveFields(argv, before, env, dirExists);
        opts.Snapshot() == r.fields && thrown == r.thrown
      ensures thrown.Some? ==> server == null && unchanged(this)
      ensures thrown.None? ==>
        && server != null && fresh(server)
        && server.connections == ConnectionPlan(opts.port, opts.httpsPort, genCerts(opts.resolvedPath).tls)
        && server.stopTimeouts == []
        && running
      ensures thrown.None? && EnablesMetrics(opts.Snapshot()) ==>
        metricsEnabled && metricsDbUrl == opts.metricsDbUrl
      ensures thrown.None? && !EnablesMetrics(opts.Snapshot()) ==>
        metricsEnabled == old(metricsEnabled) && metricsDbUrl == old(metricsDbUrl)
      ensures thrown.None? && old(running) ==>
        && server != null && server.extensions == []
        && properties == old(properties) && closedWindows == old(closedWindows)
        && baseApiInstalls == old(baseApiInstalls) && sessionRouteInstalls == old(sessionRouteInstalls)
        && callCounts == old(callCounts)
      ensures thrown.None? && !old(running) ==>
        && server != null && server.extensions == InstalledExtensions(opts.sessions)
        && properties == opts && closedWindows == old(closedWindows)
        && baseApiInstalls == old(baseApiInstalls) + 1
        && sessionRouteInstalls == old(sessionRouteInstalls) + (if Truthy(opts.sessions) then 1 else 0)
        && callCounts == map[]
    {
      if startOptions != null {
        opts := startOptions;
      } else {
        opts := new Options.Empty();
      }
      thrown := opts.Resolve(argv, env, dirExists);
      if thrown.Some? {
        server := null;
        return;
      }
      if opts.collectMetrics == Bool(true) && Truthy(opts.metricsDbUrl) {
        metricsDbUrl := opts.metricsDbUrl;
        metricsEnabled := true;
      }
      var created := CreateHapiServer(opts, genCerts);
      AddServerRoutesAndSessions(opts, created);
      server := created;
    }
  }

  /**
   * Two starts without a stop in between: the routes, the extensions and
   * the call-count table are installed by the first only, while the second
   * still creates a fresh server, which receives no extensions.
   */
  method StartTwice(c: Controller, first: Options, second: Options, argv: Argv, env: Env,
                    dirExists: Value -> bool, genCerts: Value -> CertResult)
    returns (s1: Server?, s2: Server?)
    requires c.Valid() && !c.running
    requires HostChoice(argv, first.Snapshot()).Str? && HostChoice(argv, second.Snapshot()).Str?
    modifies c, first, second
    ensures c.Valid() && c.running && c.properties == first
    ensures c.baseApiInstalls == old(c.baseApiInstalls) + 1
    ensures s1 != null && s2 != null && s1 != s2
    ensures s1.extensions == InstalledExtensions(first.sessions)
    ensures s2.extensions == []
    ensures c.sessionRouteInstalls == old(c.sessionRouteInstalls) + (if Truthy(first.sessions) then 1 else 0)
    ensures c.callCounts == map[]
  {
    var o1, t1;
    o1, s1, t1 := c.Start(first, argv, env, dirExists, genCerts);
    var o2, t2;
    o2, s2, t2 := c.Start(second, argv, env, dirExists, genCerts);
  }
}
