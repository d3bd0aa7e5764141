/** The slice of PHP's value model and exception hierarchy the client touches. */
module Php {
  import opened Wrappers

  /** A PHP value as it appears in the request bodies and query arrays the
      client and its tests build: null, an integer or a string. */
  datatype Value = Null | Int(i: int) | Str(s: string)

  /** An ordered PHP array with string keys. */
  type Assoc = seq<(string, Value)>

  /** `empty($s)` for a string: true for "" and for "0". */
  predicate EmptyString(s: string) {
    s == "" || s == "0"
  }

  /** `empty($a)` for a nullable array: true for null and for []. */
  predicate EmptyArray(a: Option<Assoc>) {
    a.None? || |a.value| == 0
  }

  /** `$a ?? []` */
  function OrEmpty(a: Option<Assoc>): Assoc {
    a.GetOr([])
  }

  /** The two exception classes the client throws: InvalidArgumentException
      (a LogicException) and RuntimeException, each with its message and code. */
  datatype Error =
    | InvalidArgument(message: string)
    | Runtime(message: string, code: int)
}
