/**
  The few JavaScript value rules the page controllers depend on: values that
  may be `null`, JavaScript truthiness of such strings, the string a template
  literal makes of them, and sets of elements carrying one CSS class.
 */
module Js {

  /** A value that may be `null` (`getAttribute`, `URLSearchParams.get`). */
  datatype Option<+T> = None | Some(value: T)

  /** JavaScript truthiness of a nullable string: `null` and `''` are falsy. */
  predicate Truthy(s: Option<string>)
  {
    s.Some? && s.value != ""
  }

  /** What a template literal makes of a nullable string: `${null}` is "null". */
  function ToText(s: Option<string>): string
  {
    if s.Some? then s.value else "null"
  }

  /** The class flags of `n` elements after "remove from all, add to the k-th". */
  function OnlyAt(n: nat, k: nat): (flags: seq<bool>)
    ensures |flags| == n
    ensures forall i :: 0 <= i < n ==> (flags[i] <==> i == k)
  {
    seq(n, i => i == k)
  }
}
