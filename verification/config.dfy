/** The configuration records (litestream.go, main.go) and the choice of replica type. */
module Config {
  import opened Wrappers
  import opened Platform
  import opened ReplicaUrl

  /** ReplicaConfig: one replica as configured; nil pointers are `None`, durations integers. */
  datatype ReplicaConfig = ReplicaConfig(
    typ: string,
    name: string,
    path: string,
    url: string,
    retention: Option<int>,
    retentionCheckInterval: Option<int>,
    syncInterval: Option<int>,
    snapshotInterval: Option<int>,
    validationInterval: Option<int>,
    accessKeyID: string,
    secretAccessKey: string,
    region: string,
    bucket: string,
    endpoint: string,
    forcePathStyle: Option<bool>,
    skipVerify: bool)

  /** DBConfig: one database and its replicas, in order. */
  datatype DBConfig = DBConfig(
    path: string,
    monitorInterval: Option<int>,
    checkpointInterval: Option<int>,
    minCheckpointPageN: Option<int>,
    maxCheckpointPageN: Option<int>,
    replicas: seq<ReplicaConfig>)

  /** Config: the metrics bind address and the databases to manage. */
  datatype Config = Config(
    addr: string,
    dbs: seq<DBConfig>,
    exec: string,
    accessKeyID: string,
    secretAccessKey: string)

  /** LitestreamConfig: the five settings the provider receives from its link definition. */
  datatype LitestreamConfig = LitestreamConfig(
    url: string,
    accessKeyID: string,
    secretAccessKey: string,
    dbLocation: string,
    s3URL: string)

  /** A replica config with every field at its zero value. */
  const EmptyReplica := ReplicaConfig("", "", "", "", None, None, None, None, None, "", "", "", "", "", None, false)

  /** ReplicaConfig.ReplicaType: the URL's scheme wins, then the Type field, then "file".
      The error of ParseReplicaURL is discarded, so a URL without a usable scheme,
      for whatever reason, leaves the decision to the Type field. */
  function ReplicaType(c: ReplicaConfig, env: Env): (t: string)
    ensures t != ""
    ensures env.urlParse(c.url).Success? && env.urlParse(c.url).value.scheme != "" ==>
              t == env.urlParse(c.url).value.scheme
    ensures env.urlParse(c.url).Failure? || env.urlParse(c.url).value.scheme == "" ==>
              t == (if c.typ != "" then c.typ else "file")
    // No URL at all: the Type field decides, defaulting to "file".
    ensures c.url == "" && ParsesEmptyAsZero(env) ==> t == (if c.typ != "" then c.typ else "file")
  {
    var scheme := ParseReplicaURL(c.url, env).scheme;
    if scheme != "" then scheme
    else if c.typ != "" then c.typ
    else "file"
  }
}
