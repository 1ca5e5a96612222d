/** The fragment of JavaScript value semantics that the sync handler relies on.
    A claim is either absent (`None`: `undefined` or `null`) or a string; a value
    is truthy when it is a non-empty string, and `a || b` yields `a` when `a` is
    truthy and `b` otherwise. */
module Js {
  import opened Wrappers

  /** JavaScript truthiness of an optional string: present and not `""`. */
  predicate Truthy(v: Option<string>) {
    v.Some? && v.value != ""
  }

  /** JavaScript's `a || b` on optional strings. */
  function Or(a: Option<string>, b: Option<string>): (r: Option<string>)
    ensures r == a || r == b
    ensures Truthy(r) <==> Truthy(a) || Truthy(b)
    ensures Truthy(a) ==> r == a
    ensures !Truthy(a) ==> r == b
  {
    if Truthy(a) then a else b
  }

  /** Falling back to a truthy value always yields a truthy value. */
  lemma OrTruthyFallback(a: Option<string>, b: Option<string>)
    requires Truthy(b)
    ensures Truthy(Or(a, b))
    ensures Or(a, b).value != ""
  {
  }
}
