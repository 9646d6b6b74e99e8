/** Small value shapes shared by every module: optional JavaScript values,
    success-or-message results, and single fields of a partial object update. */
module Values {

  /** A JavaScript value that may be `undefined`. */
  datatype Option<+T> = None | Some(value: T) {

    /** `x ?? d` / `x || d` for a value whose only falsy form is `undefined`. */
    function GetOr(default: T): T {
      match this
      case Some(v) => v
      case None => default
    }
  }

  /** The `{ success, data?, error? }` shape most services return, with the
      error message as a string. */
  datatype Result<+T> = Ok(value: T) | Err(error: string)

  /** One field of a `Partial<T>` update spread over an object
      (`{ ...current, ...updates }`): either absent or present with a value. */
  datatype Patch<+T> = Keep | Set(value: T) {

    function Apply(current: T): T {
      match this
      case Keep => current
      case Set(v) => v
    }
  }

  /** The present values of a list, in order: `filter` and `map` over the
      entries that are not `undefined`. */
  function Somes<T>(xs: seq<Option<T>>): (r: seq<T>)
    ensures |r| <= |xs|
  {
    if xs == [] then [] else (if xs[0].Some? then [xs[0].value] else []) + Somes(xs[1..])
  }

  /** Every present value is kept. */
  lemma {:induction false} SomesHas<T>(xs: seq<Option<T>>, n: nat)
    requires n < |xs| && xs[n].Some?
    ensures xs[n].value in Somes(xs)
    decreases n
  {
    if n > 0 {
      SomesHas(xs[1..], n - 1);
      assert xs[1..][n - 1] == xs[n];
    }
  }
}
