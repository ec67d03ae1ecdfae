/**
 * Configuration resolution done by `start`: every recognised field of the
 * caller's options object is overwritten, in place, by a "command line,
 * else caller option, else default" chain.
 */
module Config {
  import opened Wrappers
  import opened JsValue
  import opened HostName

  /** The command-line overrides the controller reads; how they are parsed is not part of this model. */
  datatype Argv = Argv(
    midwayPort: Value,
    midwayHttpsPort: Value,
    midwayHost: Value,
    proxyPort: Value,
    proxyHost: Value,
    mockedData: Value,
    midwaySessions: Value)

  /**
   * Values fixed outside this file: the default project name and the default
   * mock-data directory (the working directory joined with the default
   * mocked-data location).
   */
  datatype Env = Env(defaultProject: string, defaultMockDirectory: string)

  /** The fields of an options object that resolution reads or writes. */
  datatype Fields = Fields(
    port: Value,
    httpsPort: Value,
    host: Value,
    project: Value,
    proxyPort: Value,
    proxyHost: Value,
    mockedDirectory: Value,
    sessions: Value,
    resolvedPath: Value,
    collectMetrics: Value,
    metricsDbUrl: Value)

  /** A fresh `{}`: every field undefined. */
  const EmptyFields := Fields(Undefined, Undefined, Undefined, Undefined, Undefined, Undefined,
                              Undefined, Undefined, Undefined, Undefined, Undefined)

  /** `start` throws when the chosen host is not a string: it has no `replace`. */
  datatype StartError = HostNotString(host: Value)

  /** The options object after resolution, and what was thrown, if anything. */
  datatype Resolution = Resolution(fields: Fields, thrown: Option<StartError>)

  /** The host candidate `.replace` is called on. */
  function HostChoice(argv: Argv, o: Fields): Value {
    Or(Or(argv.midwayHost, o.host), Str("localhost"))
  }

  /**
   * The host with every scheme prefix removed, as `.replace` leaves it;
   * `None` when the chosen host is not a string and `replace` would throw.
   */
  function ResolvedHost(argv: Argv, o: Fields): Option<string> {
    var choice := HostChoice(argv, o);
    if choice.Str? then Some(StripSchemes(choice.s)) else None
  }

  /** The mock directory candidate, before the existence check. */
  function MockedDirectoryChoice(argv: Argv, o: Fields, env: Env): Value {
    Or(Or(argv.mockedData, o.mockedDirectory), Str(env.defaultMockDirectory))
  }

  /**
   * Resolution of options object `o`. Port and HTTPS port are written
   * before the host is normalised, so a host that is not a string leaves
   * those two fields updated and the rest untouched.
   */
  function ResolveFields(argv: Argv, o: Fields, env: Env, dirExists: Value -> bool): (r: Resolution)
    ensures Truthy(r.fields.port)
    ensures r.thrown.None? <==> HostChoice(argv, o).Str?
    ensures r.thrown.Some? ==> r.fields == o.(port := r.fields.port, httpsPort := r.fields.httpsPort)
  {
    var port := Or(Or(argv.midwayPort, o.port), Num(8080));
    var httpsPort := Or(argv.midwayHttpsPort, o.httpsPort);
    var written := o.(port := port, httpsPort := httpsPort);
    var host := ResolvedHost(argv, o);
    if host.None? then Resolution(written, Some(HostNotString(HostChoice(argv, o))))
    else
      var mocked := MockedDirectoryChoice(argv, o, env);
      var resolved := Fields(
        port, httpsPort,
        Str(host.value),
        Or(o.project, Str(env.defaultProject)),
        Or(argv.proxyPort, o.proxyPort),
        Or(Or(argv.proxyHost, o.proxyHost), Str("localhost")),
        mocked,
        Or(Or(argv.midwaySessions, o.sessions), Num(0)),
        if dirExists(mocked) then mocked else Str(env.defaultMockDirectory),
        if o.collectMetrics == Undefined then Bool(true) else o.collectMetrics,
        o.metricsDbUrl);
      Resolution(resolved, None)
  }

  /**
   * Each field follows its precedence chain: the command line, then the
   * caller's option, then the default, a falsy value (0, "", false, null,
   * undefined) falling through to the next candidate. The project has no
   * command-line override and the HTTPS and proxy ports have no default.
   */
  lemma ResolvePrecedence(argv: Argv, o: Fields, env: Env, dirExists: Value -> bool)
    ensures var r := ResolveFields(argv, o, env, dirExists);
      && r.fields.port == FirstTruthy([argv.midwayPort, o.port, Num(8080)])
      && r.fields.httpsPort == FirstTruthy([argv.midwayHttpsPort, o.httpsPort])
      && HostChoice(argv, o) == FirstTruthy([argv.midwayHost, o.host, Str("localhost")])
      && (r.thrown.None? ==>
        && r.fields.proxyPort == FirstTruthy([argv.proxyPort, o.proxyPort])
        && r.fields.proxyHost == FirstTruthy([argv.proxyHost, o.proxyHost, Str("localhost")])
        && r.fields.project == FirstTruthy([o.project, Str(env.defaultProject)])
        && r.fields.mockedDirectory == FirstTruthy([argv.mockedData, o.mockedDirectory, Str(env.defaultMockDirectory)])
        && r.fields.sessions == FirstTruthy([argv.midwaySessions, o.sessions, Num(0)])
        && r.fields.host == Str(ResolvedHost(argv, o).value)
        && r.fields.metricsDbUrl == o.metricsDbUrl)
  {
    OrChain(argv.midwayPort, o.port, Num(8080));
    OrChain(argv.midwayHttpsPort, o.httpsPort, Undefined);
    OrChain(argv.proxyPort, o.proxyPort, Undefined);
    OrChain(argv.proxyHost, o.proxyHost, Str("localhost"));
    OrChain(o.project, Str(env.defaultProject), Undefined);
    OrChain(argv.mockedData, o.mockedDirectory, Str(env.defaultMockDirectory));
    OrChain(argv.midwaySessions, o.sessions, Num(0));
    OrChain(argv.midwayHost, o.host, Str("localhost"));
  }

  /** Metrics are switched on exactly when collectMetrics is `true` and a metrics-DB URL is truthy. */
  predicate EnablesMetrics(f: Fields): (on: bool)
    ensures on ==> Truthy(f.collectMetrics) && Truthy(f.metricsDbUrl)
    ensures f.collectMetrics != Bool(true) || !Truthy(f.metricsDbUrl) ==> !on
  {
    f.collectMetrics == Bool(true) && Truthy(f.metricsDbUrl)
  }

  /**
   * The resolved host exists exactly when the chosen host is a string; it
   * never contains "://", and on one line it is the text after the last
   * "://" of the chosen host.
   */
  lemma ResolvedHostHasNoScheme(argv: Argv, o: Fields)
    ensures ResolvedHost(argv, o).Some? <==> HostChoice(argv, o).Str?
    ensures ResolvedHost(argv, o).Some? ==> !HasScheme(ResolvedHost(argv, o).value)
    ensures ResolvedHost(argv, o).Some? && NoLineTerminator(HostChoice(argv, o).s) ==>
      ResolvedHost(argv, o).value == HostChoice(argv, o).s[LastSchemeEnd(HostChoice(argv, o).s)..]
  {
    if HostChoice(argv, o).Str? {
      StripLeavesNoScheme(HostChoice(argv, o).s);
      if NoLineTerminator(HostChoice(argv, o).s) {
        StripKeepsTextAfterLastScheme(HostChoice(argv, o).s);
      }
    }
  }

  /** The default host is left as it is by normalisation. */
  lemma StripLocalhost()
    ensures StripSchemes("localhost") == "localhost"
  {
    assert !HasScheme("localhost") by {
      forall i | 0 <= i < |"localhost"| ensures !SchemeAt("localhost", i) {
        assert "localhost"[i] != ':';
      }
    }
    StripWithoutScheme("localhost");
  }

  /** After a resolution that does not throw, the options' host is a string without "://". */
  lemma OptionsHostHasNoScheme(argv: Argv, o: Fields, env: Env, dirExists: Value -> bool)
    requires ResolveFields(argv, o, env, dirExists).thrown.None?
    ensures ResolveFields(argv, o, env, dirExists).fields.host.Str?
    ensures !HasScheme(ResolveFields(argv, o, env, dirExists).fields.host.s)
  {
    StripLeavesNoScheme(HostChoice(argv, o).s);
  }

  /**
   * Feeding the resolved host back as the option gives it again, except that
   * "" falls through to "localhost" when the command line gives no host.
   */
  lemma ResolvedHostTwice(argv: Argv, o: Fields)
    requires ResolvedHost(argv, o).Some?
    ensures var h := ResolvedHost(argv, o).value;
      ResolvedHost(argv, o.(host := Str(h))) ==
        Some(if h == "" && !Truthy(argv.midwayHost) then "localhost" else h)
  {
    var choice := HostChoice(argv, o);
    var h := ResolvedHost(argv, o).value;
    var again := o.(host := Str(h));
    if Truthy(argv.midwayHost) {
      assert HostChoice(argv, again) == choice;
    } else if h != "" {
      assert HostChoice(argv, again) == Str(h);
      StripIdempotent(choice.s);
    } else {
      assert HostChoice(argv, again) == Str("localhost");
      StripLocalhost();
    }
  }

  /**
   * `resolvedPath` is the chosen mock directory when it exists and the
   * default directory otherwise; `mockedDirectory` keeps the chosen value.
   */
  lemma ResolvedPathFallsBack(argv: Argv, o: Fields, env: Env, dirExists: Value -> bool)
    requires ResolveFields(argv, o, env, dirExists).thrown.None?
    ensures var f := ResolveFields(argv, o, env, dirExists).fields;
      && f.mockedDirectory == MockedDirectoryChoice(argv, o, env)
      && (dirExists(f.mockedDirectory) ==> f.resolvedPath == f.mockedDirectory)
      && (!dirExists(f.mockedDirectory) ==> f.resolvedPath == Str(env.defaultMockDirectory))
      && (dirExists(f.resolvedPath) || f.resolvedPath == Str(env.defaultMockDirectory))
  {
  }

  /**
   * collectMetrics becomes `true` only when it was undefined, any other value
   * (an explicit `false` included) is kept, and metrics end up enabled
   * exactly when the caller left collectMetrics undefined or `true` and gave
   * a truthy metrics-DB URL.
   */
  lemma CollectMetricsDefault(argv: Argv, o: Fields, env: Env, dirExists: Value -> bool)
    requires ResolveFields(argv, o, env, dirExists).thrown.None?
    ensures var f := ResolveFields(argv, o, env, dirExists).fields;
      && (o.collectMetrics == Undefined ==> f.collectMetrics == Bool(true))
      && (o.collectMetrics != Undefined ==> f.collectMetrics == o.collectMetrics)
      && (EnablesMetrics(f) <==>
            (o.collectMetrics == Undefined || o.collectMetrics == Bool(true)) && Truthy(o.metricsDbUrl))
  {
  }

  /**
   * Resolving an already resolved options object again, with the same
   * command line, changes nothing, except that a host that normalised to ""
   * falls through to "localhost" the second time unless the command line
   * supplies it.
   */
  lemma {:induction false} ResolveTwice(argv: Argv, o: Fields, env: Env, dirExists: Value -> bool)
    requires ResolveFields(argv, o, env, dirExists).thrown.None?
    ensures var f := ResolveFields(argv, o, env, dirExists).fields;
      var g := ResolveFields(argv, f, env, dirExists);
      && g.thrown.None?
      && g.fields == f.(host := if f.host == Str("") && !Truthy(argv.midwayHost) then Str("localhost") else f.host)
  {
    ResolvedHostTwice(argv, o);
  }

  /** The caller's options object, whose fields `start` overwrites in place. */
  class Options {
    var port: Value
    var httpsPort: Value
    var host: Value
    var project: Value
    var proxyPort: Value
    var proxyHost: Value
    var mockedDirectory: Value
    var sessions: Value
    var resolvedPath: Value
    var collectMetrics: Value
    var metricsDbUrl: Value

    /** The `{}` that replaces a missing options argument. */
    constructor Empty()
      ensures Snapshot() == EmptyFields
    {
      port, httpsPort, host, project := Undefined, Undefined, Undefined, Undefined;
      proxyPort, proxyHost, mockedDirectory := Undefined, Undefined, Undefined;
      sessions, resolvedPath, collectMetrics, metricsDbUrl := Undefined, Undefined, Undefined, Undefined;
    }

    function Snapshot(): Fields
      reads this
    {
      Fields(port, httpsPort, host, project, proxyPort, proxyHost, mockedDirectory,
             sessions, resolvedPath, collectMetrics, metricsDbUrl)
    }

    /** Overwrites the fields one after another, stopping where `replace` would throw. */
    method Resolve(argv: Argv, env: Env, dirExists: Value -> bool) returns (thrown: Option<StartError>)
      modifies this
      ensures Snapshot() == ResolveFields(argv, old(Snapshot()), env, dirExists).fields
      ensures thrown == ResolveFields(argv, old(Snapshot()), env, dirExists).thrown
    {
      port := Or(Or(argv.midwayPort, port), Num(8080));
      httpsPort := Or(argv.midwayHttpsPort, httpsPort);
      var chosenHost := Or(Or(argv.midwayHost, host), Str("localhost"));
      if !chosenHost.Str? {
        return Some(HostNotString(chosenHost));
      }
      host := Str(StripSchemes(chosenHost.s));
      project := Or(project, Str(env.defaultProject));
      proxyPort := Or(argv.proxyPort, proxyPort);
      proxyHost := Or(Or(argv.proxyHost, proxyHost), Str("localhost"));
      mockedDirectory := Or(Or(argv.mockedData, mockedDirectory), Str(env.defaultMockDirectory));
      sessions := Or(Or(argv.midwaySessions, sessions), Num(0));
      resolvedPath := if dirExists(mockedDirectory) then mockedDirectory else Str(env.defaultMockDirectory);
      if collectMetrics == Undefined {
        collectMetrics := Bool(true);
      }
      thrown := None;
    }
  }
}
