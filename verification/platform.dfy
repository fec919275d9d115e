/** The libraries the core calls but whose source is not part of this model
    (net/url, path, path/filepath, os/user, net, os, the litestream and s3 packages),
    each represented by the result it produces. */
module Platform {
  import opened Wrappers

  newtype byte = b: int | 0 <= b < 256
  type Bytes = seq<byte>

  /** What url.Parse yields for a string that parses: its scheme, host and path, and
      the URL rendered back to text with its scheme cleared (u.Scheme = ""; u.String()). */
  datatype ParsedURL = ParsedURL(scheme: string, host: string, path: string, schemeless: string)

  /** What s3.ParseHost derives from a host name. */
  datatype HostDescriptor = HostDescriptor(bucket: string, region: string, endpoint: string, forcePathStyle: bool)

  /** The settings litestream.NewDB gives a fresh database; durations are integers. */
  datatype DBDefaults = DBDefaults(monitorInterval: int, checkpointInterval: int,
                                   minCheckpointPageN: int, maxCheckpointPageN: int)

  /** The intervals litestream.NewReplica gives a fresh replica. */
  datatype ReplicaDefaults = ReplicaDefaults(retention: int, retentionCheckInterval: int, syncInterval: int,
                                             snapshotInterval: int, validationInterval: int)

  /** The environment the core runs in. */
  datatype Env = Env(
    urlParse: string -> Result<ParsedURL, string>,  // url.Parse
    clean: string -> string,                        // path.Clean
    parseHost: string -> HostDescriptor,            // s3.ParseHost
    currentUser: Result<string, string>,            // user.Current(), as the home directory
    abs: string -> Result<string, string>,          // filepath.Abs
    join: (string, string) -> string,               // filepath.Join
    splitHostPort: string -> (string, string),      // net.SplitHostPort: host and port, both "" on error
    stat: string -> Option<string>,                 // os.Stat: the error, if any
    openDB: string -> Option<string>,               // (*litestream.DB).Open on a path: the error, if any
    dbDefaults: DBDefaults,
    replicaDefaults: ReplicaDefaults)

  /** url.Parse("") succeeds with the zero URL: no scheme, no host, no path, and it
      renders as the empty string. */
  predicate ParsesEmptyAsZero(env: Env) {
    env.urlParse("") == Success(ParsedURL("", "", "", ""))
  }
}
