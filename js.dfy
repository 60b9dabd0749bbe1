/** JavaScript's truthiness, for the nullable strings the pages test with `if`. */
module Js {
  import opened Wrappers

  /** `null` and the empty string are falsy; every other string is truthy. */
  predicate Truthy(e: Option<string>)
    ensures e == None ==> !Truthy(e)
    ensures e.Some? ==> (Truthy(e) <==> |e.value| > 0)
  {
    e.Some? && e.value != ""
  }
}
