/** What a JavaScript `catch` clause can receive, and the `instanceof Error` idiom used on it. */
module Js {

  /** A thrown value: an `Error` object carrying a message, or any other value. */
  datatype Thrown = ErrorObject(message: string) | OtherValue

  /** `e instanceof Error ? e.message : fallback` */
  function MessageOr(e: Thrown, fallback: string): string {
    match e
    case ErrorObject(msg) => msg
    case OtherValue => fallback
  }

  const ObjectText: string := "[object Object]"

  /** `String(v)` of an array of `n` plain objects: one `[object Object]` per element, joined by commas. */
  function ObjectArrayText(n: nat): (r: string)
    ensures r == "" <==> n == 0
    ensures n > 0 ==> |r| == 16 * n - 1
  {
    if n == 0 then ""
    else if n == 1 then ObjectText
    else ObjectArrayText(n - 1) + "," + ObjectText
  }
}
