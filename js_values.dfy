/** The values the pages read: a property is either JavaScript `undefined` or a string. */
module JsValues {

  /** `None` is JavaScript `undefined` (a property that was never set). */
  datatype Option<+T> = None | Some(value: T)

  /** JavaScript truthiness restricted to `undefined` and strings: only a non-empty string is truthy. */
  predicate Truthy(v: Option<string>) {
    v.Some? && v.value != ""
  }

  /** Property read on a plain object such as the result of `watch()`: a missing key reads as `undefined`. */
  function Get(obj: map<string, string>, key: string): Option<string> {
    if key in obj then Some(obj[key]) else None
  }
}
