/**
 * The few JavaScript primitives the handlers lean on: the truthiness of a
 * string that may be undefined, the `||` operator on such strings,
 * `String.prototype.startsWith`, and reading `process.env`.
 */
module Js {
  import opened Wrappers

  /** `!!a` for a string that may be undefined: both `undefined` and `''` are falsy. */
  predicate Truthy(a: Option<string>) {
    a.Some? && a.value != ""
  }

  /**
   * `a || b` where both sides may be undefined: the left operand when it is
   * truthy, the right operand otherwise (even when that is falsy too).
   */
  function OrElse(a: Option<string>, b: Option<string>): (r: Option<string>)
    ensures Truthy(a) ==> r == a
    ensures !Truthy(a) ==> r == b
  {
    if Truthy(a) then a else b
  }

  /** `a || b` with a right operand that is always a string. */
  function Or(a: Option<string>, b: string): (r: string)
    ensures Truthy(a) ==> r == a.value
    ensures !Truthy(a) ==> r == b
  {
    OrElse(a, Some(b)).value
  }

  /** `s.startsWith(prefix)`. */
  predicate StartsWith(s: string, prefix: string) {
    |prefix| <= |s| && s[..|prefix|] == prefix
  }

  /** `process.env`: the process's settings by name. */
  type Env = map<string, string>

  /** `process.env[key]`, which is undefined when the setting is absent. */
  function Lookup(env: Env, key: string): (r: Option<string>)
    ensures r.Some? <==> key in env
    ensures r.Some? ==> r.value == env[key]
  {
    if key in env then Some(env[key]) else None
  }

  /** `!process.env[key]`: the setting is absent or empty. */
  predicate Missing(env: Env, key: string) {
    !Truthy(Lookup(env, key))
  }
}
