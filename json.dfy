/**
 * JavaScript values as the settings store sees them: the JSON document read
 * from disk, the partial objects sent by the renderer, and the objects that
 * `deepMerge` builds.
 */
module JsonValues {

  /**
   * `Undefined` stands for a key whose value is `undefined`; a key that is
   * absent reads as `Undefined` too (see `Field`).
   */
  datatype Json =
    | Undefined
    | Null
    | Bool(b: bool)
    | Num(n: real)
    | Str(s: string)
    | Arr(items: seq<Json>)
    | Obj(fields: map<string, Json>)

  /** `obj[key]`: the value stored under `key`, or `undefined` when there is none. */
  function Field(m: map<string, Json>, key: string): (v: Json)
    ensures key !in m ==> v == Undefined
    ensures key in m ==> v == m[key]
  {
    if key in m then m[key] else Undefined
  }

  /**
   * The own enumerable properties of `{ ...(v ?? {}) }` when `v` is an object,
   * and no properties otherwise.
   */
  function AsObject(v: Json): map<string, Json>
  {
    if v.Obj? then v.fields else map[]
  }

  /** A value that `deepMerge` copies over wholesale: defined, and not a plain object. */
  predicate IsLeaf(v: Json)
  {
    !v.Undefined? && !v.Obj?
  }
}
