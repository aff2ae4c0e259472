/**
 * JavaScript truthiness and the `||` defaulting idiom over nullable columns.
 * A string is truthy when present and non-empty, a number when present and
 * non-zero (NaN does not occur in integer columns).
 */
module Js {
  import opened Wrappers

  /** JavaScript truthiness of an optional string: present and non-empty. */
  predicate Truthy(s: Option<string>) {
    s.Some? && s.value != ""
  }

  /** JavaScript truthiness of an optional integer: present and non-zero. */
  predicate TruthyNum(n: Option<int>) {
    n.Some? && n.value != 0
  }

  /** `s || null` (or `s || undefined`) for an optional string. */
  function OrNull(s: Option<string>): (r: Option<string>)
    ensures r.Some? <==> Truthy(s)
    ensures r.Some? ==> r == s
  {
    if Truthy(s) then s else None
  }

  /** `n || undefined` for a nullable number: zero is dropped as well. */
  function NumOrNull(n: Option<int>): (r: Option<int>)
    ensures r.Some? <==> TruthyNum(n)
    ensures r.Some? ==> r == n
  {
    if TruthyNum(n) then n else None
  }

  /** `s || fallback` for an optional string. */
  function OrElse(s: Option<string>, fallback: string): (r: string)
    ensures Truthy(s) ==> r == s.value
    ensures !Truthy(s) ==> r == fallback
  {
    if Truthy(s) then s.value else fallback
  }

  /** `n || 0` for a nullable number. */
  function OrZero(n: Option<int>): int {
    if n.Some? then n.value else 0
  }
}
