/** The errors the core reports, and "the first error in a sequence of steps". */
module Errors {
  import opened Wrappers

  /** One constructor per error the core raises itself; `External` carries the message
      of an error returned by a library call, passed through unchanged. */
  datatype Error =
    | External(msg: string)
    | PathIsURL(path: string)          // "replica path cannot be a url ..."
    | UnknownReplicaType(typ: string)  // "unknown replica type in config: %q" (of the Type field)
    | URLWithPath                      // "cannot specify url & path for s3 replica"
    | URLWithBucket                    // "cannot specify url & bucket for s3 replica"
    | SchemeRequired(url: string)      // "replica url scheme required: %s"
    | BucketRequired                   // "bucket required for s3 replica"
    | NoHomeDirectory(path: string)    // "cannot expand path %s, no home directory available"

  /** A library result whose error is a message, seen as a result of the core. */
  function Lift<T>(r: Result<T, string>): Result<T, Error> {
    match r
    case Success(v) => Success(v)
    case Failure(m) => Failure(External(m))
  }

  /** The error of the first element of `xs` that `check` rejects: what a loop that stops
      at its first failing step returns. */
  function FirstError<T, C>(xs: seq<T>, ctx: C, check: (T, C) -> Option<Error>): (r: Option<Error>)
    ensures r.None? <==> forall i :: 0 <= i < |xs| ==> check(xs[i], ctx).None?
    ensures r.Some? ==> exists k :: 0 <= k < |xs| && check(xs[k], ctx) == r &&
                                    forall j :: 0 <= j < k ==> check(xs[j], ctx).None?
  {
    if xs == [] then None
    else if check(xs[0], ctx).Some? then check(xs[0], ctx)
    else
      var rest := FirstError(xs[1..], ctx, check);
      assert forall i :: 0 < i < |xs| ==> xs[1..][i - 1] == xs[i];
      rest
  }

  /** The first failing step determines the result. */
  lemma {:induction false} FirstErrorAt<T, C>(xs: seq<T>, ctx: C, check: (T, C) -> Option<Error>, k: nat)
    requires k < |xs| && check(xs[k], ctx).Some?
    requires forall j :: 0 <= j < k ==> check(xs[j], ctx).None?
    ensures FirstError(xs, ctx, check) == check(xs[k], ctx)
  {
    if k > 0 {
      assert forall j :: 0 <= j < k - 1 ==> xs[1..][j] == xs[j + 1];
      FirstErrorAt(xs[1..], ctx, check, k - 1);
    }
  }
}
