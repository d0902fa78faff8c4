/** The slice of JavaScript semantics the model relies on: values, truthiness and a few string builtins. */
module Js {

  /** A JavaScript value, as far as the configuration records need one. */
  datatype Value =
    | Undefined
    | Null
    | Bool(b: bool)
    | Num(n: int)
    | Str(s: string)
    | Obj(fields: map<string, Value>)
    | Func(name: string)

  /** `!!v`: the JavaScript truthiness of a value (NaN is not modelled). */
  predicate Truthy(v: Value) {
    match v
    case Undefined => false
    case Null => false
    case Bool(b) => b
    case Num(n) => n != 0
    case Str(s) => s != ""
    case Obj(_) => true
    case Func(_) => true
  }

  /** `s.startsWith(prefix)`. */
  predicate StartsWith(s: string, prefix: string) {
    |prefix| <= |s| && s[..|prefix|] == prefix
  }

  /** `s.endsWith(suffix)`. */
  predicate EndsWith(s: string, suffix: string) {
    |suffix| <= |s| && s[|s| - |suffix|..] == suffix
  }

  /** `c.repeat(n)` for a one-character string `c`. */
  function Repeat(c: char, n: nat): (r: string)
    ensures |r| == n
    ensures forall i :: 0 <= i < n ==> r[i] == c
  {
    if n == 0 then [] else [c] + Repeat(c, n - 1)
  }

  /** Where `String.prototype.substr(start)` starts reading in a string of length `len`. */
  function SubstrStart(len: nat, start: int): (k: nat)
    ensures k <= len
  {
    if start < 0 then (if len + start < 0 then 0 else len + start)
    else if start < len then start
    else len
  }

  /** `s.substr(start)` without a length argument: the characters from `start` on, where a negative
      `start` counts back from the end and is clamped at the beginning of the string. */
  function Substr(s: string, start: int): (r: string)
    ensures EndsWith(s, r)
    ensures start < 0 ==> |r| == (if -start < |s| then -start else |s|)
    ensures start >= 0 ==> |r| == (if start < |s| then |s| - start else 0)
  {
    s[SubstrStart(|s|, start)..]
  }
}
