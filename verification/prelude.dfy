/** Small shared vocabulary: optional values, the outcome of a remote call that may
    raise, and the prefix of at most n elements of a sequence. */
module Prelude {

  /** A value that may be absent (a missing JSON field, an unconfigured client). */
  datatype Option<+T> = None | Some(value: T) {

    /** The value, or `default` when absent. */
    function GetOr(default: T): T {
      if Some? then value else default
    }
  }

  /** The outcome of a call into the remote catalog: its value, or the message of
      the exception it raised. */
  datatype Fetch<+T> = Ok(value: T) | Fail(msg: string)

  /** The first `n` elements of `s`, or all of `s` when it is shorter. */
  function Take<T>(s: seq<T>, n: nat): (r: seq<T>)
    ensures |r| == if |s| < n then |s| else n
    ensures r <= s
  {
    if |s| <= n then s else s[..n]
  }
}
