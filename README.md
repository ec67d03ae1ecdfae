# midway server controller — a Dafny model

This project models `lib/server-controller.js` of the midway mock server: the
controller that resolves the server's configuration, creates the Hapi server
with its HTTP and optional HTTPS connections, installs the mock API routes and
the request/response extensions once per running window, and stops the
server.

Modules:

- `JsValue` (js_value.dfy): the JavaScript values the controller reads
  (`undefined`, `null`, booleans, numbers, strings), JavaScript truthiness, and
  `||`. `FirstTruthy` is a list-based reference definition of a
  precedence chain.
- `HostName` (host_name.dfy): `host.replace(/.*?:\/\//g, '')`, modelled as the
  regular-expression engine runs it. `MatchAt` is the anchored lazy match: the
  dot does not match line terminators. `ReplaceFrom` is the global replace
  loop. `LastSchemeEnd` is an independent definition of "the text after the
  last `://`".
- `Config` (config.dfy): the pure resolution function `ResolveFields` over a
  snapshot of the options object. The `Options` class is the caller's options
  object, and its `Resolve` method overwrites the fields in place, in the
  source's order.
- `Hapi` (hapi.dfy): the part of a Hapi server the controller touches. It
  records the connections added, the `ext` registrations and the timeouts of
  stop requests.
- `ServerController` (server_controller.dfy): the connection plan,
  `CreateHapiServer`, and the `Controller` class. The class holds the
  process-wide state: the running flag, the stored server properties, the
  counts of base-API and session-route installations, the URL call-count
  table and the metrics settings. Its methods are `Start`,
  `AddServerRoutesAndSessions` and `Stop`. `Controller.Valid` states that the
  base APIs are installed exactly once per running window.

Inputs from outside the file are parameters of the model:

- the parsed command line (`Argv`);
- the default project name and the default mock directory (`Env`);
- the directory-existence check (`dirExists`);
- the certificate generator (`genCerts`), whose result is an error value
  together with opaque TLS material;
- the error that the framework's shutdown reports (`err` of `Stop`).

Behaviour of the code worth knowing:

- A certificate-generation error does not abort the bind. The HTTPS connection
  is still added, with whatever TLS material came back.
- `sessions` is only tested for truthiness. It is not checked to be a
  non-negative integer.
- `mockedDirectory` keeps the chosen value. Only `resolvedPath` falls back to
  the default directory.
- The response extension is registered only when a server is passed, and only
  on the first start of a running window.
- A second start while running still creates a fresh server with its
  connections. That server gets no extensions.
- A host that is not a string makes `start` throw. By then `port` and
  `httpsPort` have already been written.
- Resolving twice is not exactly idempotent. A host that normalises to `""`
  (for example `"http://"`) becomes `"localhost"` on the second pass, unless
  the command line supplies the host (`Config.ResolveTwice`).

## Model

| member | source | states |
|---|---|---|
| `JsValue.Truthy` | lib/server-controller.js:35-42 | JavaScript ToBoolean as the source's `\|\|` chains and `if` tests use it: falsy are exactly undefined, null, false, 0 and "" |
| `JsValue.Or` | lib/server-controller.js:35-42 | `a \|\| b` is truthy iff one operand is; it is `a` when `a` is truthy and `b` otherwise |
| `JsValue.FirstTruthy` | lib/server-controller.js:35-42 | a precedence chain yields a candidate at some index i; every candidate before i is falsy; the result is truthy unless i is the last candidate |
| `JsValue.OrChain` | lib/server-controller.js:35-42 | the left-nested `a \|\| b \|\| c` of the source picks the first truthy of `[a, b, c]` |
| `HostName.ReplaceFrom` | lib/server-controller.js:37 | the global replace loop of `.replace(/.*?:\/\/g, '')`: it only deletes, so the result is no longer than the text not yet copied |
| `HostName.StripSchemes` | lib/server-controller.js:37 | the normalised host contains no `://`, is unchanged when the input has none, and is never longer than the input |
| `HostName.MatchAt` | lib/server-controller.js:37 | an anchored match of `.*?:\/\/` succeeds iff no line terminator comes before the first `://` at or after its start, and then ends just after that `://` |
| `HostName.LastSchemeEnd` | lib/server-controller.js:37 | the start of the text after the last `://`: a `://` ends there (or it is 0), and no `://` starts at or after it |
| `HostName.StripLeavesNoScheme` | lib/server-controller.js:37 | the normalised host contains no `://` for any input, line terminators included |
| `HostName.StripWithoutScheme` | lib/server-controller.js:37 | a host without `://` is left unchanged |
| `HostName.StripIdempotent` | lib/server-controller.js:37 | normalising twice gives the same result as normalising once |
| `HostName.StripKeepsTextAfterLastScheme` | lib/server-controller.js:37 | on a host without line terminators, the normalised host is exactly the text after the last `://` |
| `HostName.MultiLineHostKeepsEveryLine` | lib/server-controller.js:37 | on `"a://b\nc://d"` the normalised host is `"b\nd"`, while the text after the last `://` is `"d"`: each line loses its own prefix |
| `Config.ResolveFields` | lib/server-controller.js:35-49 | the resolved port is always truthy; resolution throws iff the chosen host is not a string; when it throws, only port and httpsPort have been written |
| `Config.ResolvePrecedence` | lib/server-controller.js:35-42 | each field is the first truthy of its chain: port (CLI, option, 8080); httpsPort and proxyPort (CLI, option); host and proxyHost (CLI, option, "localhost"); project (option, default); mockedDirectory (CLI, option, default dir); sessions (CLI, option, 0); the host field is the normalised chosen host; the metrics-DB URL is untouched |
| `Config.ResolvedHostHasNoScheme` | lib/server-controller.js:37 | a resolved host exists iff the chosen host is a string; it contains no `://`; on one line it is the text after the last `://` of the chosen value |
| `Config.OptionsHostHasNoScheme` | lib/server-controller.js:37 | after a resolution that does not throw, the options object's host is a string without `://` |
| `Config.ResolvedHostTwice` | lib/server-controller.js:37 | feeding the resolved host back as the option gives it again, except that "" becomes "localhost" when the command line gives no host |
| `Config.ResolvedPathFallsBack` | lib/server-controller.js:41-44 | resolvedPath is mockedDirectory when that directory exists and the default directory otherwise; mockedDirectory keeps the chosen value; resolvedPath is an existing directory or the default |
| `Config.EnablesMetrics` | lib/server-controller.js:52 | metrics are switched on only when collectMetrics is exactly `true` and the metrics-DB URL is truthy |
| `Config.CollectMetricsDefault` | lib/server-controller.js:47-57 | collectMetrics becomes true only when undefined, and any other value (explicit false included) is kept; metrics are enabled iff collectMetrics was undefined or true and the metrics-DB URL is truthy |
| `Config.ResolveTwice` | lib/server-controller.js:35-49 | resolving the resolved options again with the same command line returns them unchanged, except that a host normalised to "" becomes "localhost" when the command line gives no host |
| `Config.Options.Empty` | lib/server-controller.js:31 | a missing options argument becomes an object with every field undefined |
| `Config.Options.Resolve` | lib/server-controller.js:35-49 | the options object's fields become exactly those of `ResolveFields` on its old fields, and what is thrown is the error `ResolveFields` reports |
| `ServerController.ConnectionPlan` | lib/server-controller.js:118-130 | the first connection is always `http` on port, without TLS; an `https` connection exists iff httpsPort is truthy, and carries httpsPort and the certificate material; one connection, or two in that order |
| `ServerController.CreateHapiServer` | lib/server-controller.js:118-130 | a fresh server whose connections are the connection plan for the resolved ports, with the TLS material generated for resolvedPath whatever error came with it; no extensions |
| `ServerController.InstalledExtensions` | lib/server-controller.js:97-111 | the response handler on `onPostHandler` comes first; the request handler on `onRequest` is present iff sessions is truthy |
| `ServerController.StopCallback` | lib/server-controller.js:75-85 | without a callback nothing is called; with one, it gets the error iff the error is truthy, and no argument otherwise |
| `ServerController.Controller.AddServerRoutesAndSessions` | lib/server-controller.js:88-116 | while running, nothing changes; otherwise: running is set, the options are stored and the base APIs are installed once; the server gets the installed extensions; session routes are installed iff sessions is truthy; the call-count table is emptied; nothing else changes |
| `ServerController.Controller.Stop` | lib/server-controller.js:72-86 | the running flag is cleared whatever the shutdown reports, closing the window if one was open; the server gets one stop request with timeout 0; the callback call is `StopCallback`; nothing else changes |
| `ServerController.Controller.Start` | lib/server-controller.js:30-70 | the options object (or a fresh `{}`) holds the resolved fields; on a throw nothing else changes; otherwise metrics are set iff enabled, a fresh server gets the connection plan, and the guard runs on it |
| `ServerController.StartTwice` | lib/server-controller.js:88-116 | two starts without a stop install the base APIs once; the first server gets the extensions; the second, distinct server gets none |

## Left out

- The Hapi framework is not modelled. `Server` only records connections, `ext` registrations and stop requests. Route tables, request dispatch and shutdown are outside the model, and the error a shutdown reports is a parameter.
- `ServerController.Controller.Stop` takes a non-null server: the call with no server, which clears the running flag and then throws a TypeError at `server.stop`, is not modelled.
- The plugin runner (`MidwayPluginController.runHapiWithPlugins`) is a foreign call. So is the file handler (`respondWithFileHandler`, `initFileHandler`), and neither is modelled.
- The caller's start callback is not modelled, because the plugin runner is what calls it.
- The logger is left out: it is output only.
- `MetricsManager` and `setKairosDbUrl` are recorded only as the controller's `metricsEnabled` flag and `metricsDbUrl` value.
- Certificate generation is not modelled: it is cryptography and file-system work. Its result is a parameter, an error value together with opaque TLS material.
- `checkDirectoryExists` is a file-system check. It is the parameter `dirExists`.
- Parsing of the command line is not modelled. `Argv` is an opaque input record.
- The values of `Constants` (the default project, the default mocked-data location, the metrics-DB option key) are not part of this model. They enter as `Env`, and the metrics-DB option is the field `metricsDbUrl`.
- `startTime = new Date()` is left out, because it reads the clock.
- The request and response handlers and the route manager are not part of this model. This covers the per-request call-count increment, the session route namespaces per session index, and any response rewriting. The model records only that handlers are registered, that session routes are installed and that the call-count table is reset.
- Asynchronous callback ordering and concurrency are not modelled; the model is sequential.
- Values of other JavaScript types (objects, functions, NaN, fractional numbers) as option values, are not modelled: `Value` covers undefined, null, booleans, integers and strings.
