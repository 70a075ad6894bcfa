/**
 The JavaScript values a configuration field can hold, and the two tests the
 binding applies to them: truthiness (`if (x)`) and the loose null test
 (`x != null`, which is false exactly for `null` and `undefined`).
 */
module JsValues {

  /** Numbers are modelled as integers; `Obj` stands for any object, array or Buffer. */
  datatype JsValue =
    | Undefined
    | Null
    | Bool(b: bool)
    | Num(n: int)
    | Str(s: string)
    | Obj(ref: nat)

  /** `x == null` under loose equality. */
  predicate IsNullish(x: JsValue) {
    x.Undefined? || x.Null?
  }

  /** Boolean coercion: `false`, `0`, `""`, `null` and `undefined` are falsy. */
  predicate Truthy(x: JsValue) {
    match x
    case Undefined => false
    case Null => false
    case Bool(b) => b
    case Num(n) => n != 0
    case Str(s) => |s| > 0
    case Obj(_) => true
  }

  /** Every nullish value is falsy; the converse fails for `false`, `0` and `""`. */
  lemma NullishIsFalsy(x: JsValue)
    ensures IsNullish(x) ==> !Truthy(x)
    ensures !Truthy(x) && !IsNullish(x) <==> x in {Bool(false), Num(0), Str("")}
  {
  }
}
