/** Starting replication for the provider's one database (litestream.go: StartLitestream). */
module Startup {
  import opened Wrappers
  import opened Errors
  import opened Platform
  import opened ReplicaUrl
  import opened Config
  import opened Helpers

  /** The configuration StartLitestream builds from the provider's settings: the metrics
      address, and one database at DBLocation with one replica whose URL is S3URL and whose
      credentials are the provider's; everything else is left at its zero value. */
  function BuildConfig(lc: LitestreamConfig): (c: Config)
    ensures c.addr == lc.url
    // No exec command, and no global credentials: they live on the replica only.
    ensures c.exec == "" && c.accessKeyID == "" && c.secretAccessKey == ""
    ensures |c.dbs| == 1
    ensures c.dbs[0] == DBConfig(lc.dbLocation, None, None, None, None, c.dbs[0].replicas)
    ensures |c.dbs[0].replicas| == 1
    ensures c.dbs[0].replicas[0] == EmptyReplica.(url := lc.s3URL, accessKeyID := lc.accessKeyID,
                                                   secretAccessKey := lc.secretAccessKey)
  {
    var repConf := EmptyReplica.(url := lc.s3URL, accessKeyID := lc.accessKeyID,
                                 secretAccessKey := lc.secretAccessKey);
    var dbConf := DBConfig(lc.dbLocation, None, None, None, None, [repConf]);
    Config(lc.url, [dbConf], "", "", "")
  }

  /** The provider's replica is decided by its URL alone: it is accepted exactly when the
      URL is non-empty, parses with scheme "s3" and names a bucket in its host; the client
      then takes bucket, region, endpoint and path style from the host. */
  lemma StartupReplicaFromURL(lc: LitestreamConfig, env: Env)
    ensures var rc := BuildConfig(lc).dbs[0].replicas[0];
            var u := env.urlParse(lc.s3URL);
            ReplicaClient(rc, env).Success? <==>
              lc.s3URL != "" && u.Success? && u.value.scheme == "s3" &&
              env.parseHost(u.value.host).bucket != ""
    ensures var rc := BuildConfig(lc).dbs[0].replicas[0];
            var u := ParseReplicaURL(lc.s3URL, env);
            var h := env.parseHost(u.host);
            ReplicaClient(rc, env).Success? ==>
              ReplicaClient(rc, env).value ==
                S3Client(lc.accessKeyID, lc.secretAccessKey, h.bucket, u.path, h.region, h.endpoint,
                         h.forcePathStyle, false)
  {
    var rc := BuildConfig(lc).dbs[0].replicas[0];
    assert WordRun(rc.path) == 0;
    assert !IsURL(rc.path);
    assert !PathStyleBaseline(rc);
  }

  /** net.JoinHostPort: an IPv6 host (one holding a colon) goes in square brackets. */
  function JoinHostPort(host: string, port: string): string {
    if ':' in host then "[" + host + "]:" + port else host + ":" + port
  }

  /** What becomes of the metrics endpoint. */
  datatype Metrics =
    | NoServer                                      // no bind address configured
    | MissingPort(addr: string)                     // fatal: the process ends
    | Serving(listenAddr: string, loggedAddr: string)

  /** The metrics part of StartLitestream: an address without a port is fatal; a host-less
      address is logged as localhost, while the server listens on the address as given. */
  method MetricsServer(addr: string, env: Env) returns (m: Metrics)
    ensures addr == "" ==> m == NoServer
    ensures addr != "" && env.splitHostPort(addr).1 == "" ==> m == MissingPort(addr)
    ensures addr != "" && env.splitHostPort(addr).1 != "" ==> m.Serving? && m.listenAddr == addr
    ensures m.Serving? ==> m.loggedAddr == (if env.splitHostPort(addr).0 == ""
                                            then "localhost:" + env.splitHostPort(addr).1
                                            else addr)
  {
    if addr == "" {
      return NoServer;
    }
    var hostport := addr;
    var (host, port) := env.splitHostPort(addr);
    if port == "" {
      return MissingPort(addr);
    } else if host == "" {
      hostport := JoinHostPort("localhost", port);
    }
    m := Serving(addr, hostport);
  }

  /** The error that stops StartLitestream at database `dbc`, if any: building it, then opening it. */
  function StartError(dbc: DBConfig, env: Env): Option<Error> {
    match AssemblyError(dbc, env)
    case Some(e) => Some(e)
    case None =>
      match env.openDB(Expand(dbc.path, env).value)
      case Some(m) => Some(External(m))
      case None => None
  }

  /** StartLitestream: check the database file exists, build the configuration, then build
      and open each database in order, stopping at the first failure; `dbs` are the databases
      opened, and `metrics` what becomes of the metrics endpoint. */
  method StartLitestream(lc: LitestreamConfig, env: Env) returns (err: Option<Error>, dbs: seq<DB>, metrics: Metrics)
    ensures env.stat(lc.dbLocation).Some? ==> err == Some(External(env.stat(lc.dbLocation).value)) && dbs == []
    ensures env.stat(lc.dbLocation).None? ==> err == FirstError(BuildConfig(lc).dbs, env, StartError)
    ensures err.None? ==> |dbs| == |BuildConfig(lc).dbs|
    ensures |dbs| <= |BuildConfig(lc).dbs|
    ensures forall i :: 0 <= i < |dbs| ==>
              fresh(dbs[i]) && dbs[i].Assembled(BuildConfig(lc).dbs[i], env) && dbs[i].isOpen
    ensures err.Some? ==> metrics == NoServer
    ensures err.None? && lc.url == "" ==> metrics == NoServer
    ensures err.None? && lc.url != "" && env.splitHostPort(lc.url).1 == "" ==> metrics == MissingPort(lc.url)
    ensures err.None? && lc.url != "" && env.splitHostPort(lc.url).1 != "" ==>
              metrics == Serving(lc.url, if env.splitHostPort(lc.url).0 == ""
                                         then "localhost:" + env.splitHostPort(lc.url).1
                                         else lc.url)
  {
    dbs := [];
    metrics := NoServer;
    var statErr := env.stat(lc.dbLocation);
    if statErr.Some? {
      return Some(External(statErr.value)), dbs, metrics;
    }

    var conf := BuildConfig(lc);
    // The configuration always holds one database, so "no databases specified" cannot occur.

    for i := 0 to |conf.dbs|
      invariant |dbs| == i
      invariant forall j :: 0 <= j < i ==> StartError(conf.dbs[j], env).None?
      invariant forall j :: 0 <= j < i ==> fresh(dbs[j]) && dbs[j].Assembled(conf.dbs[j], env) && dbs[j].isOpen
    {
      var db, dbErr := NewDBFromConfig(conf.dbs[i], env);
      if dbErr.Some? {
        FirstErrorAt(conf.dbs, env, StartError, i);
        return dbErr, dbs, metrics;
      }
      var openErr := db.Open(env);
      if openErr.Some? {
        FirstErrorAt(conf.dbs, env, StartError, i);
        return Some(External(openErr.value)), dbs, metrics;
      }
      dbs := dbs + [db];
    }
    err := None;

    metrics := MetricsServer(conf.addr, env);
  }
}
