/** Small shared helper: an optional value (PHP's nullable types). */
module Base {
  datatype Option<T> = None | Some(value: T)
}

/**
 * The PHP values the driver inspects. Only what the driver looks at is modelled:
 * the name `gettype` gives, PHP truthiness (the `if ($x)` and `!$x` tests) and
 * what a `foreach` over the value yields.
 */
module PhpValues {

  datatype PhpValue =
    | PNull
    | PBool(b: bool)
    | PInt(i: int)
    | PDouble(x: real)
    | PString(s: string)
      /** An array; only its values, in iteration order, are kept. */
    | PArray(elems: seq<PhpValue>)
      /** An object of class `cls`; `items` is what a `foreach` over it yields. */
    | PObject(cls: string, items: seq<PhpValue>)

  /** PHP truthiness of a string: only "" and "0" are falsy. */
  predicate StringTruthy(s: string) {
    s != "" && s != "0"
  }

  /** PHP truthiness of a value (objects are always truthy). */
  predicate Truthy(v: PhpValue) {
    match v
    case PNull => false
    case PBool(b) => b
    case PInt(i) => i != 0
    case PDouble(x) => x != 0.0
    case PString(s) => StringTruthy(s)
    case PArray(elems) => |elems| > 0
    case PObject(_, _) => true
  }

  /** The type name PHP's `gettype` reports. */
  function GetType(v: PhpValue): string {
    match v
    case PNull => "NULL"
    case PBool(_) => "boolean"
    case PInt(_) => "integer"
    case PDouble(_) => "double"
    case PString(_) => "string"
    case PArray(_) => "array"
    case PObject(_, _) => "object"
  }

  /**
   * The values a `foreach` over `v` visits: the elements of an array, the items
   * of an object, and nothing for a scalar (PHP warns and skips the loop).
   */
  function Elements(v: PhpValue): (r: seq<PhpValue>)
    ensures v.PArray? ==> r == v.elems
    ensures v.PObject? ==> r == v.items
    ensures !(v.PArray? || v.PObject?) ==> r == []
  {
    match v
    case PArray(elems) => elems
    case PObject(_, items) => items
    case _ => []
  }
}
