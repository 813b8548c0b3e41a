/** Optional values: JavaScript's `undefined`/`null` for a field that may be absent. */
module Optional {

  datatype Option<+T> = None | Some(value: T) {

    /** The value if present, else `default` (the `??` operator). */
    function GetOr(default: T): T {
      match this
      case Some(v) => v
      case None => default
    }
  }

  /** An optional string is truthy when it is present and not "". */
  predicate Truthy(s: Option<string>) {
    s.Some? && s.value != ""
  }

  /** `s || fallback` for an optional string: an absent or empty string is falsy. */
  function OrElse(s: Option<string>, fallback: string): (r: string)
    ensures s.Some? && s.value != "" ==> r == s.value
    ensures (s.None? || s.value == "") ==> r == fallback
  {
    if s.Some? && s.value != "" then s.value else fallback
  }

  /** `s || undefined`: the empty string is falsy and becomes absent. */
  function NonEmpty(s: string): (r: Option<string>)
    ensures r.None? <==> s == ""
    ensures r.Some? ==> r.value == s
  {
    if s == "" then None else Some(s)
  }

  /** `a || b || fallback` over optional strings: the first non-empty one. */
  function FirstTruthy(a: Option<string>, b: Option<string>, fallback: string): (r: string)
    ensures a.Some? && a.value != "" ==> r == a.value
    ensures (a.None? || a.value == "") && b.Some? && b.value != "" ==> r == b.value
    ensures (a.None? || a.value == "") && (b.None? || b.value == "") ==> r == fallback
    ensures fallback != "" ==> r != ""
  {
    OrElse(a, OrElse(b, fallback))
  }
}
