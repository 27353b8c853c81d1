/** Optional values as the front end sees them.

    `Option` is the usual Some/None. `JsOpt` keeps apart the two ways a JavaScript
    property can be absent: `undefined` (the key is missing, or a row parsed from a
    spreadsheet left it empty) and `null` (what the hosted database returns for an
    empty column). Strict equality `!==` tells them apart; loose `!=` does not.
    `JsValue` is a dynamically typed field value, for the code that updates records
    key by key. */
module Wrappers {

  datatype Option<+T> = None | Some(value: T) {
    function GetOr(default: T): T {
      match this
      case Some(v) => v
      case None => default
    }
  }

  datatype JsOpt<+T> = Undefined | Null | Val(v: T) {
    /** `x == null` in JavaScript: true for both null and undefined. */
    predicate IsNullish() {
      !Val?
    }
  }

  /** Loose equality `a == b` of two optional values: null and undefined are equal. */
  predicate LooseEq<T(==)>(a: JsOpt<T>, b: JsOpt<T>) {
    (a.IsNullish() && b.IsNullish()) || (a.Val? && b.Val? && a.v == b.v)
  }

  /** `undefined` becomes `null`; everything else is kept. */
  function UndefinedToNull<T(==)>(a: JsOpt<T>): (r: JsOpt<T>)
    ensures !r.Undefined?
    ensures !a.Undefined? ==> r == a
    ensures LooseEq(a, r)
  {
    if a.Undefined? then Null else a
  }

  /** An optional property that holds `undefined` when absent. */
  function OptionToJs<T>(o: Option<T>): (r: JsOpt<T>)
    ensures !r.Null?
    ensures r.Val? <==> o.Some?
    ensures o.Some? ==> r.v == o.value
  {
    match o
    case Some(v) => Val(v)
    case None => Undefined
  }

  /** The value of a JavaScript property of any type. `Num` holds integers only:
      every numeric field modelled this way is produced by `parseInt` or is a
      whole-number setting. */
  datatype JsValue = VUndefined | VNull | VBool(b: bool) | VNum(n: int) | VNaN | VStr(s: string) {
    /** JavaScript truthiness. */
    predicate Truthy() {
      match this
      case VBool(b) => b
      case VNum(n) => n != 0
      case VStr(s) => s != ""
      case _ => false
    }
  }

  /** Truthiness of an optional value whose payload is always truthy when present
      (ids from the database start at 1, but 0 is falsy and is kept apart). */
  predicate TruthyNat(a: JsOpt<nat>) {
    a.Val? && a.v != 0
  }

  predicate TruthyBool(a: JsOpt<bool>) {
    a.Val? && a.v
  }

  predicate TruthyString(a: JsOpt<string>) {
    a.Val? && a.v != ""
  }
}
