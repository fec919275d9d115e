/** Turning configuration into a database with its replicas (ls_helpers.go). */
module Helpers {
  import opened Wrappers
  import opened Errors
  import opened Strings
  import opened Platform
  import opened ReplicaUrl
  import opened Config

  // ---------------------------------------------------------------------------
  // Home-directory expansion

  /** expand: a path starting with "~" (alone or followed by "/") is resolved against the
      current user's home directory; any other path is made absolute. */
  function Expand(s: string, env: Env): (r: Result<string, Error>)
    // No home-directory prefix: the result is filepath.Abs's, errors included.
    ensures s != "~" && !HasPrefix(s, "~/") ==> r == Lift(env.abs(s))
    // With the prefix, success needs a successful lookup and a non-empty home directory.
    ensures s == "~" || HasPrefix(s, "~/") ==>
              (r.Success? <==> env.currentUser.Success? && env.currentUser.value != "")
    ensures (s == "~" || HasPrefix(s, "~/")) && env.currentUser.Failure? ==>
              r == Failure(External(env.currentUser.error))
    ensures (s == "~" || HasPrefix(s, "~/")) && env.currentUser == Success("") ==>
              r == Failure(NoHomeDirectory(s))
    // "~" is the home directory; "~/x" is x joined onto it.
    ensures s == "~" && r.Success? ==> r.value == env.currentUser.value
    ensures HasPrefix(s, "~/") && r.Success? ==>
              r.value == env.join(env.currentUser.value, s[2..])
  {
    if s != "~" && !HasPrefix(s, "~/") then Lift(env.abs(s))
    else match env.currentUser
      case Failure(e) => Failure(External(e))
      case Success(home) =>
        if home == "" then Failure(NoHomeDirectory(s))
        else if s == "~" then Success(home)
        else Success(env.join(home, TrimPrefix(s, "~/")))
  }

  // ---------------------------------------------------------------------------
  // The S3 replica client

  /** s3.ReplicaClient as configured by the core. */
  datatype S3Client = S3Client(
    accessKeyID: string,
    secretAccessKey: string,
    bucket: string,
    path: string,
    region: string,
    endpoint: string,
    forcePathStyle: bool,
    skipVerify: bool)

  /** Path-style addressing before the URL is consulted: on when an endpoint is given,
      unless the configuration sets the flag explicitly. */
  function PathStyleBaseline(c: ReplicaConfig): bool {
    c.forcePathStyle.GetOr(c.endpoint != "")
  }

  /** A URL-derived value fills a field only when the configuration left it empty. */
  function Prefer(explicit: string, fromURL: string): string {
    if explicit != "" then explicit else fromURL
  }

  /** The client an S3 replica configuration describes, or why it describes none. */
  function S3Settings(c: ReplicaConfig, env: Env): (r: Result<S3Client, Error>)
    // A URL excludes an explicit path and an explicit bucket; path is checked first.
    ensures c.url != "" && c.path != "" ==> r == Failure(URLWithPath)
    ensures c.url != "" && c.path == "" && c.bucket != "" ==> r == Failure(URLWithBucket)
    // With a URL and no conflict, the URL's error is returned, then a host without a
    // bucket is the missing-bucket error; nothing else fails.
    ensures c.url != "" && c.path == "" && c.bucket == "" ==>
              var u := ParseReplicaURL(c.url, env);
              && (u.err.Some? ==> r == Failure(u.err.value))
              && (u.err.None? && env.parseHost(u.host).bucket == "" ==> r == Failure(BucketRequired))
              && (r.Success? <==> u.err.None? && env.parseHost(u.host).bucket != "")
    // No client without a bucket.
    ensures r.Success? ==> r.value.bucket != ""
    // Credentials and TLS setting are copied verbatim.
    ensures r.Success? ==> r.value.accessKeyID == c.accessKeyID &&
                           r.value.secretAccessKey == c.secretAccessKey &&
                           r.value.skipVerify == c.skipVerify
    // Explicit non-empty values survive, each field on its own.
    ensures r.Success? && c.region != "" ==> r.value.region == c.region
    ensures r.Success? && c.endpoint != "" ==> r.value.endpoint == c.endpoint
    ensures r.Success? && c.path != "" ==> r.value.path == c.path
    ensures r.Success? && c.bucket != "" ==> r.value.bucket == c.bucket
    // The URL can switch path style on but never off.
    ensures r.Success? && PathStyleBaseline(c) ==> r.value.forcePathStyle
  {
    if c.url != "" && c.path != "" then Failure(URLWithPath)
    else if c.url != "" && c.bucket != "" then Failure(URLWithBucket)
    else if c.url == "" then
      if c.bucket == "" then Failure(BucketRequired)
      else Success(S3Client(c.accessKeyID, c.secretAccessKey, c.bucket, c.path, c.region,
                            c.endpoint, PathStyleBaseline(c), c.skipVerify))
    else
      var u := ParseReplicaURL(c.url, env);
      if u.err.Some? then Failure(u.err.value)
      else
        var h := env.parseHost(u.host);
        if h.bucket == "" then Failure(BucketRequired)
        else Success(S3Client(c.accessKeyID, c.secretAccessKey, h.bucket, u.path,
                              Prefer(c.region, h.region), Prefer(c.endpoint, h.endpoint),
                              PathStyleBaseline(c) || h.forcePathStyle, c.skipVerify))
  }

  /** newS3ReplicaClientFromConfig: check for conflicts, fill in local settings from the
      configuration, then from the URL where still empty, check the bucket, build the client. */
  method NewS3ReplicaClientFromConfig(c: ReplicaConfig, env: Env) returns (r: Result<S3Client, Error>)
    ensures r == S3Settings(c, env)
  {
    if c.url != "" && c.path != "" {
      return Failure(URLWithPath);
    } else if c.url != "" && c.bucket != "" {
      return Failure(URLWithBucket);
    }

    var bucket, path := c.bucket, c.path;
    var region, endpoint, skipVerify := c.region, c.endpoint, c.skipVerify;

    var forcePathStyle := endpoint != "";
    if c.forcePathStyle.Some? {
      forcePathStyle := c.forcePathStyle.value;
    }

    if c.url != "" {
      var u := ParseReplicaURL(c.url, env);
      if u.err.Some? {
        return Failure(u.err.value);
      }
      var h := env.parseHost(u.host);
      if path == "" {
        path := u.path;
      }
      if bucket == "" {
        bucket := h.bucket;
      }
      if region == "" {
        region := h.region;
      }
      if endpoint == "" {
        endpoint := h.endpoint;
      }
      if !forcePathStyle {
        forcePathStyle := h.forcePathStyle;
      }
    }

    if bucket == "" {
      return Failure(BucketRequired);
    }
    r := Success(S3Client(c.accessKeyID, c.secretAccessKey, bucket, path, region, endpoint,
                          forcePathStyle, skipVerify));
  }

  /** Without a URL the explicit fields are taken as they are: resolution is a projection. */
  lemma ExplicitOnlyIsProjection(c: ReplicaConfig, env: Env)
    requires c.url == "" && c.bucket != ""
    ensures S3Settings(c, env) == Success(S3Client(c.accessKeyID, c.secretAccessKey, c.bucket, c.path,
                                                   c.region, c.endpoint, PathStyleBaseline(c), c.skipVerify))
  {
  }

  /** A replica of type "s3" with no URL, a bucket and a plain path is built from its
      explicit fields alone: the path check passes, the type stands, resolution is a projection. */
  lemma ExplicitS3ReplicaBuilt(c: ReplicaConfig, env: Env)
    requires ParsesEmptyAsZero(env)
    requires c.url == "" && c.typ == "s3" && c.bucket != "" && !IsURL(c.path)
    ensures ReplicaClient(c, env) == Success(S3Client(c.accessKeyID, c.secretAccessKey, c.bucket, c.path,
                                                      c.region, c.endpoint, PathStyleBaseline(c), c.skipVerify))
  {
    assert ReplicaType(c, env) == "s3";
    ExplicitOnlyIsProjection(c, env);
  }

  /** Without a URL, a missing bucket is the only way to fail. */
  lemma ExplicitOnlyNeedsBucket(c: ReplicaConfig, env: Env)
    requires c.url == ""
    ensures S3Settings(c, env).Failure? <==> c.bucket == ""
    ensures S3Settings(c, env).Failure? ==> S3Settings(c, env).error == BucketRequired
  {
  }

  /** An endpoint turns path style on unless the flag is set; an explicit flag decides alone. */
  lemma PathStyleFromEndpoint(c: ReplicaConfig)
    ensures c.forcePathStyle.None? ==> PathStyleBaseline(c) == (c.endpoint != "")
    ensures c.forcePathStyle.Some? ==> PathStyleBaseline(c) == c.forcePathStyle.value
  {
  }

  /** With a URL, path and bucket always come from the URL (explicit ones were refused),
      region and endpoint from the host unless given, and path style is the OR of the
      baseline and the host's flag: an explicit `false` can still end up `true`. */
  lemma URLFillsEmptyFields(c: ReplicaConfig, env: Env)
    requires c.url != "" && S3Settings(c, env).Success?
    ensures var u := ParseReplicaURL(c.url, env);
            var h := env.parseHost(u.host);
            var client := S3Settings(c, env).value;
            && u.err.None?
            && client.path == u.path
            && client.bucket == h.bucket
            && client.region == (if c.region != "" then c.region else h.region)
            && client.endpoint == (if c.endpoint != "" then c.endpoint else h.endpoint)
            && client.forcePathStyle == (PathStyleBaseline(c) || h.forcePathStyle)
  {
  }

  // ---------------------------------------------------------------------------
  // Replicas and databases

  /** The client a replica configuration yields, or the error NewReplicaFromConfig returns:
      URL-looking paths are refused first, then every type but "s3" (including "file"). */
  function ReplicaClient(c: ReplicaConfig, env: Env): (r: Result<S3Client, Error>)
    ensures IsURL(c.path) ==> r == Failure(PathIsURL(c.path))
    ensures !IsURL(c.path) && ReplicaType(c, env) != "s3" ==> r == Failure(UnknownReplicaType(c.typ))
    ensures r.Success? <==> !IsURL(c.path) && ReplicaType(c, env) == "s3" && S3Settings(c, env).Success?
    ensures r.Success? ==> r == S3Settings(c, env)
    // Past the path and type checks, the S3 resolution decides, its errors included.
    ensures !IsURL(c.path) && ReplicaType(c, env) == "s3" ==> r == S3Settings(c, env)
  {
    if IsURL(c.path) then Failure(PathIsURL(c.path))
    else if ReplicaType(c, env) != "s3" then Failure(UnknownReplicaType(c.typ))
    else S3Settings(c, env)
  }

  /** A file replica is never built. */
  lemma FileReplicaRejected(c: ReplicaConfig, env: Env)
    requires ReplicaType(c, env) == "file"
    ensures ReplicaClient(c, env).Failure?
  {
  }

  function ReplicaError(c: ReplicaConfig, env: Env): Option<Error> {
    ReplicaClient(c, env).ErrorOption()
  }

  /** litestream.Replica: a named replica of one database, its intervals and its client. */
  class Replica {
    const db: DB
    const name: string
    var retention: int
    var retentionCheckInterval: int
    var syncInterval: int
    var snapshotInterval: int
    var validationInterval: int
    var client: Option<S3Client>

    /** litestream.NewReplica */
    constructor (db: DB, name: string, defaults: ReplicaDefaults)
      ensures this.db == db && this.name == name
      ensures retention == defaults.retention && retentionCheckInterval == defaults.retentionCheckInterval
      ensures syncInterval == defaults.syncInterval && snapshotInterval == defaults.snapshotInterval
      ensures validationInterval == defaults.validationInterval
      ensures client.None?
    {
      this.db := db;
      this.name := name;
      retention := defaults.retention;
      retentionCheckInterval := defaults.retentionCheckInterval;
      syncInterval := defaults.syncInterval;
      snapshotInterval := defaults.snapshotInterval;
      validationInterval := defaults.validationInterval;
      client := None;
    }

    /** This replica is what configuration `c` describes: each interval the configuration
        sets overrides the default, and the client is the resolved S3 client. */
    ghost predicate Built(c: ReplicaConfig, env: Env)
      reads this
    {
      && name == c.name
      && retention == c.retention.GetOr(env.replicaDefaults.retention)
      && retentionCheckInterval == c.retentionCheckInterval.GetOr(env.replicaDefaults.retentionCheckInterval)
      && syncInterval == c.syncInterval.GetOr(env.replicaDefaults.syncInterval)
      && snapshotInterval == c.snapshotInterval.GetOr(env.replicaDefaults.snapshotInterval)
      && validationInterval == c.validationInterval.GetOr(env.replicaDefaults.validationInterval)
      && client.Some?
      && client == ReplicaClient(c, env).ToOption()
    }
  }

  /** litestream.DB: a database path, its monitoring settings and its replicas. */
  class DB {
    const path: string
    var monitorInterval: int
    var checkpointInterval: int
    var minCheckpointPageN: int
    var maxCheckpointPageN: int
    var replicas: seq<Replica>
    var isOpen: bool

    /** litestream.NewDB */
    constructor (path: string, defaults: DBDefaults)
      ensures this.path == path
      ensures monitorInterval == defaults.monitorInterval && checkpointInterval == defaults.checkpointInterval
      ensures minCheckpointPageN == defaults.minCheckpointPageN && maxCheckpointPageN == defaults.maxCheckpointPageN
      ensures replicas == [] && !isOpen
    {
      this.path := path;
      monitorInterval := defaults.monitorInterval;
      checkpointInterval := defaults.checkpointInterval;
      minCheckpointPageN := defaults.minCheckpointPageN;
      maxCheckpointPageN := defaults.maxCheckpointPageN;
      replicas := [];
      isOpen := false;
    }

    /** (*DB).Open: the engine's outcome for this path, surfaced unchanged. */
    method Open(env: Env) returns (err: Option<string>)
      modifies this`isOpen
      ensures err == env.openDB(path)
      ensures isOpen <==> err.None?
    {
      err := env.openDB(path);
      isOpen := err.None?;
    }

    /** The settings `dbc` sets override the engine's defaults; the others keep them. */
    ghost predicate Configured(dbc: DBConfig, env: Env)
      reads this
    {
      && monitorInterval == dbc.monitorInterval.GetOr(env.dbDefaults.monitorInterval)
      && checkpointInterval == dbc.checkpointInterval.GetOr(env.dbDefaults.checkpointInterval)
      && minCheckpointPageN == dbc.minCheckpointPageN.GetOr(env.dbDefaults.minCheckpointPageN)
      && maxCheckpointPageN == dbc.maxCheckpointPageN.GetOr(env.dbDefaults.maxCheckpointPageN)
    }

    /** The replicas are those `rcs` describes, one each, in order, all of this database. */
    ghost predicate HasReplicasFor(rcs: seq<ReplicaConfig>, env: Env)
      reads this, replicas
    {
      && |replicas| == |rcs|
      && forall i :: 0 <= i < |replicas| ==> replicas[i].db == this && replicas[i].Built(rcs[i], env)
    }

    /** This database is what `dbc` describes: the expanded path, each configured setting
        over the default, and one replica per configured replica, in order. */
    ghost predicate Assembled(dbc: DBConfig, env: Env)
      reads this, replicas
    {
      && Expand(dbc.path, env).Success?
      && path == Expand(dbc.path, env).value
      && Configured(dbc, env)
      && HasReplicasFor(dbc.replicas, env)
    }
  }

  /** NewReplicaFromConfig: refuse a URL-looking path, build the replica with its interval
      overrides, and attach an S3 client; any other type is an error. */
  method NewReplicaFromConfig(c: ReplicaConfig, db: DB, env: Env) returns (r: Replica?, err: Option<Error>)
    ensures err == ReplicaError(c, env)
    ensures r == null <==> err.Some?
    ensures r != null ==> fresh(r) && r.db == db && r.Built(c, env)
  {
    if IsURL(c.path) {
      return null, Some(PathIsURL(c.path));
    }

    r := new Replica(db, c.name, env.replicaDefaults);
    if c.retention.Some? {
      r.retention := c.retention.value;
    }
    if c.retentionCheckInterval.Some? {
      r.retentionCheckInterval := c.retentionCheckInterval.value;
    }
    if c.syncInterval.Some? {
      r.syncInterval := c.syncInterval.value;
    }
    if c.snapshotInterval.Some? {
      r.snapshotInterval := c.snapshotInterval.value;
    }
    if c.validationInterval.Some? {
      r.validationInterval := c.validationInterval.value;
    }

    if ReplicaType(c, env) == "s3" {
      var client := NewS3ReplicaClientFromConfig(c, env);
      if client.Failure? {
        return null, Some(client.error);
      }
      r.client := Some(client.value);
    } else {
      return null, Some(UnknownReplicaType(c.typ));
    }
    err := None;
  }

  /** The error NewDBFromConfig returns for `dbc`, if any: the path expansion's, else the
      first replica's. */
  function AssemblyError(dbc: DBConfig, env: Env): (e: Option<Error>)
    ensures Expand(dbc.path, env).Failure? ==> e == Some(Expand(dbc.path, env).error)
    ensures e.None? <==> Expand(dbc.path, env).Success? &&
                         forall i :: 0 <= i < |dbc.replicas| ==> ReplicaClient(dbc.replicas[i], env).Success?
  {
    match Expand(dbc.path, env)
    case Failure(x) => Some(x)
    case Success(_) => FirstError(dbc.replicas, env, ReplicaError)
  }

  /** NewDBFromConfig: expand the path, create the database, apply the configured settings,
      then build and attach the replicas in order, giving up at the first failure. */
  method NewDBFromConfig(dbc: DBConfig, env: Env) returns (db: DB?, err: Option<Error>)
    ensures err == AssemblyError(dbc, env)
    ensures db == null <==> err.Some?
    ensures db != null ==> fresh(db) && db.Assembled(dbc, env) && !db.isOpen
  {
    var path := Expand(dbc.path, env);
    if path.Failure? {
      return null, Some(path.error);
    }

    db := new DB(path.value, env.dbDefaults);

    if dbc.monitorInterval.Some? {
      db.monitorInterval := dbc.monitorInterval.value;
    }
    if dbc.checkpointInterval.Some? {
      db.checkpointInterval := dbc.checkpointInterval.value;
    }
    if dbc.minCheckpointPageN.Some? {
      db.minCheckpointPageN := dbc.minCheckpointPageN.value;
    }
    if dbc.maxCheckpointPageN.Some? {
      db.maxCheckpointPageN := dbc.maxCheckpointPageN.value;
    }

    for i := 0 to |dbc.replicas|
      invariant fresh(db) && !db.isOpen && db.path == path.value && db.Configured(dbc, env)
      invariant |db.replicas| == i
      invariant forall k :: 0 <= k < i ==> db.replicas[k].db == db && db.replicas[k].Built(dbc.replicas[k], env)
      invariant forall j :: 0 <= j < i ==> ReplicaError(dbc.replicas[j], env).None?
    {
      var r, rerr := NewReplicaFromConfig(dbc.replicas[i], db, env);
      if rerr.Some? {
        FirstErrorAt(dbc.replicas, env, ReplicaError, i);
        return null, rerr;
      }
      db.replicas := db.replicas + [r];
    }
    err := None;
  }
}
