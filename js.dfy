/**
 * The JavaScript runtime notions the route relies on: optional-or-null fields,
 * JSON values, thrown values, and `Array.prototype.map` with a callback that
 * may throw.
 */
module Js {
  import opened Wrappers

  /** A field typed `T | null` that may also be left out (`field?: T | null`). */
  datatype Nullish<+T> = Undefined | Null | Defined(value: T)
  {
    /** `x ?? d`: only `undefined` and `null` are replaced. */
    function OrElse(d: T): (r: T)
      ensures Defined? ==> r == value
      ensures !Defined? ==> r == d
    {
      if Defined? then value else d
    }
  }

  /** A JSON value, as `JSON.parse` produces it. */
  datatype Json =
    | JNull
    | JBool(b: bool)
    | JNumber(n: real)
    | JString(s: string)
    | JArray(items: seq<Json>)
    | JObject(members: seq<(string, Json)>)

  /**
   * `JSON.parse`: the parsed value, or the message of the `SyntaxError` it
   * throws. Its internals are not modelled; every operation that parses takes
   * one as a parameter.
   */
  type Parser = string -> Result<Json, string>

  /** A thrown value: an `Error` object with its message, or anything else. */
  datatype Thrown = ErrorObject(message: string) | NonErrorValue

  /**
   * `xs.map(f)` where `f` may throw: the callback runs on the elements in
   * order and the first exception escapes, abandoning the rest.
   */
  function MapAll<A, B, E>(f: A -> Result<B, E>, xs: seq<A>): (r: Result<seq<B>, E>)
    ensures r.Success? ==> |r.value| == |xs|
    ensures r.Success? ==> forall i :: 0 <= i < |xs| ==> f(xs[i]) == Success(r.value[i])
    decreases |xs|
  {
    if xs == [] then Success([])
    else
      match f(xs[0])
      case Failure(e) => Failure(e)
      case Success(y) =>
        match MapAll(f, xs[1..])
        case Failure(e) => Failure(e)
        case Success(ys) => Success([y] + ys)
  }

  /** Element `i` is the first one on which `f` throws, and it throws `e`. */
  ghost predicate FirstFailureAt<A, B, E>(f: A -> Result<B, E>, xs: seq<A>, i: int, e: E)
  {
    && 0 <= i < |xs|
    && f(xs[i]) == Failure(e)
    && forall j :: 0 <= j < i ==> f(xs[j]).Success?
  }

  /** The map succeeds exactly when the callback succeeds on every element. */
  lemma {:induction false} MapAllSucceedsIff<A, B, E>(f: A -> Result<B, E>, xs: seq<A>)
    ensures MapAll(f, xs).Success? <==> forall i :: 0 <= i < |xs| ==> f(xs[i]).Success?
    decreases |xs|
  {
    if xs != [] && f(xs[0]).Success? {
      MapAllSucceedsIff(f, xs[1..]);
      if forall i :: 0 <= i < |xs| ==> f(xs[i]).Success? {
        forall i | 0 <= i < |xs[1..]| ensures f(xs[1..][i]).Success? {
          assert xs[1..][i] == xs[i + 1];
        }
      }
    }
  }

  /** A failing map throws exactly what the callback threw on the first failing element. */
  lemma {:induction false} MapAllFailsAtFirst<A, B, E>(f: A -> Result<B, E>, xs: seq<A>)
    ensures MapAll(f, xs).Failure? ==> exists i :: FirstFailureAt(f, xs, i, MapAll(f, xs).error)
    ensures forall i, e :: FirstFailureAt(f, xs, i, e) ==> MapAll(f, xs) == Failure(e)
    decreases |xs|
  {
    if xs != [] {
      MapAllFailsAtFirst(f, xs[1..]);
      if f(xs[0]).Failure? {
        assert FirstFailureAt(f, xs, 0, MapAll(f, xs).error);
        forall i, e | FirstFailureAt(f, xs, i, e) ensures MapAll(f, xs) == Failure(e) {
          assert i == 0;
        }
      } else {
        if MapAll(f, xs).Failure? {
          var i :| FirstFailureAt(f, xs[1..], i, MapAll(f, xs[1..]).error);
          assert FirstFailureAt(f, xs, i + 1, MapAll(f, xs).error) by {
            forall j | 0 <= j < i + 1 ensures f(xs[j]).Success? {
              if j > 0 { assert xs[j] == xs[1..][j - 1]; }
            }
          }
        }
        forall i, e | FirstFailureAt(f, xs, i, e) ensures MapAll(f, xs) == Failure(e) {
          assert i > 0;
          assert FirstFailureAt(f, xs[1..], i - 1, e) by {
            forall j | 0 <= j < i - 1 ensures f(xs[1..][j]).Success? {
              assert xs[1..][j] == xs[j + 1];
            }
          }
        }
      }
    }
  }
}
