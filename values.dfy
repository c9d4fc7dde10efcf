/**
 * Representative JavaScript values a `Thrown` dispatcher can wrap. Objects
 * carry an identity (`ref`) and the names of the constructors along their
 * prototype chain, nearest first, so that `instanceof` is membership in that
 * lineage. Each `ref` is taken to belong to one object with one lineage, so
 * "the same object" is datatype equality. Numbers are integers here, and
 * symbols and bigints have no variant: the dispatcher only applies `??` and
 * `instanceof` to a wrapped value, and both treat every primitive alike.
 */
module Values {

  /** The name of a class (constructor function). */
  type ClassName = string

  datatype Value =
    | Object(ref: nat, lineage: seq<ClassName>)
    | Str(s: string)
    | Num(n: int)
    | Bool(b: bool)
    | Null
    | Undefined

  /** `v instanceof ctor`: only objects are instances, of every class in their lineage. */
  predicate InstanceOf(v: Value, ctor: ClassName)
  {
    v.Object? && ctor in v.lineage
  }

  /** The values the `??` operator treats as absent. */
  predicate IsNullish(v: Value)
  {
    v.Null? || v.Undefined?
  }

  /** `left ?? right`. */
  function Coalesce(left: Value, right: Value): Value
  {
    if IsNullish(left) then right else left
  }
}
