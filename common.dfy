/** Values shared by every module: optional values, results, and the
    dynamically typed values that Python keeps in keyword dictionaries
    (`validated_data`, `**extra_fields`) and model attributes. */
module Common {

  datatype Option<T> = None | Some(value: T)

  /** The outcome of an operation that may raise: `Err` carries what was raised. */
  datatype Result<T, E> = Ok(value: T) | Err(error: E)

  /** A Python value stored under a field name. `Null` is Python's `None`;
      `Hashed(raw)` is what `set_password(raw)` stores: the hash of `raw`,
      whose algorithm is not part of this model. */
  datatype Value = Null | Bool(b: bool) | Int(i: int) | Str(s: string) | Hashed(raw: Value)

  /** `d.get(key)`: the stored value, or `None` when the key is absent. */
  function Get(d: map<string, Value>, key: string): (v: Value)
    ensures key in d ==> v == d[key]
    ensures key !in d ==> v == Null
  {
    if key in d then d[key] else Null
  }
}
