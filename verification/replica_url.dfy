/** Recognising and splitting replica URLs (ls_helpers.go: isURL, ParseReplicaURL). */
module ReplicaUrl {
  import opened Wrappers
  import opened Errors
  import opened Strings
  import opened Platform

  /** Length of the longest prefix of `s` made of word characters. */
  function WordRun(s: string): (n: nat)
    ensures n <= |s|
    ensures forall i :: 0 <= i < n ==> IsWordChar(s[i])
    ensures n < |s| ==> !IsWordChar(s[n])
  {
    if s == [] || !IsWordChar(s[0]) then 0 else 1 + WordRun(s[1..])
  }

  /** isURL: a greedy reading of the pattern `^\w+://`. */
  predicate IsURL(s: string) {
    var n := WordRun(s);
    0 < n && HasPrefix(s[n..], "://")
  }

  /** The pattern `^\w+://` matches with its `\w+` ending just before index `k`. */
  ghost predicate SchemeEndsAt(s: string, k: int) {
    0 < k && k + 3 <= |s| &&
    (forall i :: 0 <= i < k ==> IsWordChar(s[i])) &&
    s[k..k + 3] == "://"
  }

  /** IsURL(s) holds exactly when the regular expression `^\w+://` matches `s`. */
  lemma {:induction false} IsURLMatchesPattern(s: string)
    ensures IsURL(s) <==> exists k :: SchemeEndsAt(s, k)
  {
    var n := WordRun(s);
    if IsURL(s) {
      assert s[n..][..3] == s[n..n + 3];
      assert SchemeEndsAt(s, n);
    }
    if k :| SchemeEndsAt(s, k) {
      assert s[k] == ':' && !IsWordChar(s[k]);
      assert n == k;
      assert s[n..][..3] == s[k..k + 3];
    }
  }

  /** What ParseReplicaURL returns: scheme, host and path, and the error, if any. Go
      returns all four; on a missing scheme the host and path are filled in even so. */
  datatype SplitURL = SplitURL(scheme: string, host: string, path: string, err: Option<Error>)

  /** ParseReplicaURL: split a replica URL by its scheme. */
  function ParseReplicaURL(s: string, env: Env): (r: SplitURL)
    // A URL that does not parse yields nothing but the parser's error.
    ensures env.urlParse(s).Failure? ==> r == SplitURL("", "", "", Some(External(env.urlParse(s).error)))
    // Otherwise the scheme is the parsed scheme, and only an empty scheme is an error.
    ensures env.urlParse(s).Success? ==>
              r.scheme == env.urlParse(s).value.scheme &&
              (r.err.None? <==> r.scheme != "") &&
              (r.err.Some? ==> r.err == Some(SchemeRequired(s)))
    // An error from the parser is the only case that loses the host and path.
    ensures env.urlParse(s).Success? && r.scheme == "" ==>
              r.host == env.urlParse(s).value.host && r.path == env.urlParse(s).value.path
    // file: no host; the path is the whole URL without its scheme, cleaned.
    ensures env.urlParse(s).Success? && r.scheme == "file" ==>
              r.host == "" && r.path == env.clean(env.urlParse(s).value.schemeless)
    // Any other scheme: the host as parsed, the cleaned path less one leading "/".
    ensures env.urlParse(s).Success? && r.scheme !in {"", "file"} ==>
              var cleaned := env.clean(env.urlParse(s).value.path);
              r.host == env.urlParse(s).value.host &&
              (if HasPrefix(cleaned, "/") then "/" + r.path == cleaned else r.path == cleaned)
  {
    match env.urlParse(s)
    case Failure(e) => SplitURL("", "", "", Some(External(e)))
    case Success(u) =>
      if u.scheme == "file" then SplitURL(u.scheme, "", env.clean(u.schemeless), None)
      else if u.scheme == "" then SplitURL(u.scheme, u.host, u.path, Some(SchemeRequired(s)))
      else SplitURL(u.scheme, u.host, TrimPrefix(env.clean(u.path), "/"), None)
  }
}
