/**
 * The values jlox's tree-walking interpreter computes with. Java represents them
 * as plain Objects: null, Boolean, Double, String, the `clock` native, and the
 * runtime objects LoxFunction, LoxClass and LoxInstance. Here a runtime object is
 * a reference into the interpreter's object arena, so Java's reference identity
 * is equality of arena positions.
 */
module LoxValues {
  import opened Tokens

  datatype Value =
    | Nil
    | Bool(b: bool)
    | Num(n: real)
    | Str(s: string)
    | Clock
    | Ref(index: nat)

  /** The Object a literal token carries, as a run-time value. */
  function FromLiteral(literal: LiteralValue): (v: Value)
    ensures literal.NilValue? <==> v.Nil?
    ensures literal.BoolValue? ==> v == Bool(literal.b)
    ensures literal.NumberValue? ==> v == Num(literal.n)
    ensures literal.StringValue? ==> v == Str(literal.s)
    ensures !v.Clock? && !v.Ref?
  {
    match literal
    case NilValue => Nil
    case BoolValue(b) => Bool(b)
    case NumberValue(n) => Num(n)
    case StringValue(s) => Str(s)
  }

  /** isTruthy: null and false are falsey, every other value is truthy. */
  function IsTruthy(v: Value): (r: bool)
    ensures !r <==> v == Nil || v == Bool(false)
  {
    if v.Nil? then false
    else if v.Bool? then v.b
    else true
  }

  /**
   * Object.equals on a non-null receiver: Boolean, Double and String compare by
   * value, the clock native and the runtime objects by identity.
   */
  function JavaEquals(a: Value, b: Value): bool
    requires !a.Nil?
  {
    match a
    case Bool(x) => b.Bool? && b.b == x
    case Num(x) => b.Num? && b.n == x
    case Str(x) => b.Str? && b.s == x
    case Clock => b.Clock?
    case Ref(i) => b.Ref? && b.index == i
  }

  /**
   * isEqual: two nulls are equal, null equals nothing else, and otherwise
   * Java's equals decides; on this value domain that is exactly equality, so
   * it is reflexive, symmetric and nil equals only nil.
   */
  function IsEqual(a: Value, b: Value): (r: bool)
    ensures r <==> a == b
    ensures a.Nil? ==> (r <==> b.Nil?)
  {
    if a.Nil? && b.Nil? then true
    else if a.Nil? then false
    else JavaEquals(a, b)
  }
}
