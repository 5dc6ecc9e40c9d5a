/** The JavaScript values a caller can hand to `store` or get back from `get`. */
module JsValues {
  import opened Wrappers

  /** JSON-shaped data plus `undefined`; an object is its own enumerable properties. */
  datatype Value =
    | Undefined
    | Null
    | Bool(b: bool)
    | Num(n: real)
    | Str(s: string)
    | Arr(elems: seq<Value>)
    | Obj(fields: map<string, Value>)

  /** JavaScript truthiness: what `if (!token)` tests. */
  predicate Truthy(v: Value)
    ensures !Truthy(v) <==> v == Undefined || v == Null || v == Bool(false) || v == Num(0.0) || v == Str("")
  {
    match v
    case Undefined => false
    case Null => false
    case Bool(b) => b
    case Num(n) => n != 0.0
    case Str(s) => s != ""
    case Arr(_) => true
    case Obj(_) => true
  }

  /**
   * `v.refresh_token` for a value that is neither null nor undefined: an
   * object's own field, and undefined for every other kind of value
   * (no built-in prototype has such a property).
   */
  function RefreshTokenOf(v: Value): (r: Value)
    ensures v.Obj? && "refresh_token" in v.fields ==> r == v.fields["refresh_token"]
    ensures r != Undefined ==> v.Obj? && "refresh_token" in v.fields
  {
    if v.Obj? && "refresh_token" in v.fields then v.fields["refresh_token"] else Undefined
  }

  /**
   * `Object.assign(contents, refresh)` followed by a read of `contents`: an
   * object target receives an object source's fields (the source wins on
   * shared keys), a null or undefined target is a TypeError (None), and any
   * other pairing returns the target as it was. That last case is exact only
   * for sources without indexed properties: a string or array source would
   * have its indices copied into an object target, and would make a
   * non-empty string target throw a TypeError; neither is modelled.
   */
  function Assign(target: Value, source: Value): (r: Option<Value>)
    ensures r.None? <==> target == Undefined || target == Null
    ensures r.Some? && target.Obj? && source.Obj? ==> (
      && r.value.Obj?
      && r.value.fields.Keys == target.fields.Keys + source.fields.Keys
      && (forall k :: k in source.fields ==> r.value.fields[k] == source.fields[k])
      && (forall k :: k in target.fields && k !in source.fields ==> r.value.fields[k] == target.fields[k]))
    ensures r.Some? && !(target.Obj? && source.Obj?) ==> r.value == target
  {
    if target.Undefined? || target.Null? then None
    else if target.Obj? && source.Obj? then Some(Obj(target.fields + source.fields))
    else Some(target)
  }
}
