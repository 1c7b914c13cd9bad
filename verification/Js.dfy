/**
 * The few JavaScript value semantics the SDK relies on: `undefined`/`null`,
 * truthiness (`||`), nullish coalescing (`??`), errors, and the outcome of an
 * awaited host call.
 */
module Js {

  datatype Option<+T> = None | Some(value: T)

  /** A JavaScript value as stored in the host's config store (`ConfigValue`,
      plus `undefined`). Numbers are integers here; objects and arrays are
      opaque and identified by a reference. */
  datatype Value =
    | Undefined
    | Null
    | Bool(b: bool)
    | Num(n: int)
    | Str(s: string)
    | Obj(ref: nat)

  /** `v == null || v === undefined`: the only values `??` replaces. */
  predicate Nullish(v: Value) {
    v.Undefined? || v.Null?
  }

  /** JavaScript truthiness: what `if (v)` and `v || w` test. */
  predicate Truthy(v: Value) {
    match v
    case Undefined => false
    case Null => false
    case Bool(b) => b
    case Num(n) => n != 0
    case Str(s) => s != ""
    case Obj(_) => true
  }

  /** `a ?? b` */
  function Coalesce(a: Value, b: Value): (r: Value)
    ensures Nullish(a) ==> r == b
    ensures !Nullish(a) ==> r == a
    ensures Truthy(a) ==> r == a
  {
    if Nullish(a) then b else a
  }

  /** `d ?? null`: the value a hook falls back to when `d` is its optional default. */
  function DefaultOrNull(d: Value): (r: Value)
    ensures !r.Undefined?
    ensures Nullish(d) ==> r == Null
    ensures !Nullish(d) ==> r == d
  {
    Coalesce(d, Null)
  }

  /** A falsy value that is not nullish survives `??` although it would not survive `||`. */
  lemma CoalesceKeepsFalsy(a: Value, b: Value)
    requires !Nullish(a) && !Truthy(a)
    ensures a == Bool(false) || a == Num(0) || a == Str("")
    ensures Coalesce(a, b) == a
  {
  }

  /** An error raised by the host or thrown by the SDK. */
  datatype Error = Error(message: string)

  /** What an awaited call `await window.electronAPI?.f?.(...)` yields:
      Absent when the bridge or the method is missing (the optional chain
      evaluates to `undefined` and nothing is called), otherwise the host's
      resolved value or its rejection. */
  datatype Call<+T> = Absent | Ok(value: T) | Err(error: Error)

  /** How an SDK call ends for its caller: it returns (its promise resolves)
      with a value, or it throws (its promise rejects). */
  datatype Completion<+T> = Returns(value: T) | Throws(error: Error)

  /** The text a clipboard read yields: `content || ''`, where a missing or
      null host result stands for `None`. The content is kept
      exactly when `Truthy(Str(content))` holds. */
  function ClipboardText(content: Option<string>): (text: string)
    ensures text != "" <==> content.Some? && content.value != ""
    ensures text != "" ==> text == content.value
  {
    if content.Some? then content.value else ""
  }
}
