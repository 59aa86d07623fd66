/**
 * Attribute values as a closed tagged sum over the kinds the core handles
 * (integer, real, complex, real matrix, complex matrix) plus a kind the core
 * does not handle, so that the "unsupported attribute type" paths are
 * reachable. Matrix coefficients are abstracted away: only a matrix's shape
 * matters to the code modelled here.
 */
module Attributes {
  import opened Optional

  datatype Kind =
    | IntKind
    | RealKind
    | ComplexKind
    | RealMatrixKind
    | ComplexMatrixKind
    | OtherKind(typeName: string)

  datatype Value =
    | IntValue(i: int)
    | RealValue(x: real)
    | ComplexValue(re: real, im: real)
    | RealMatrixValue(rows: nat, cols: nat)
    | ComplexMatrixValue(rows: nat, cols: nat)
    | OtherValue(typeName: string)

  /** An attribute handle: its identity (the shared pointer) and its current value. */
  datatype Attribute = Attribute(id: nat, value: Value)

  function KindOf(v: Value): Kind {
    match v
    case IntValue(_) => IntKind
    case RealValue(_) => RealKind
    case ComplexValue(_, _) => ComplexKind
    case RealMatrixValue(_, _) => RealMatrixKind
    case ComplexMatrixValue(_, _) => ComplexMatrixKind
    case OtherValue(t) => OtherKind(t)
  }

  /**
   * `copyValue`: copy a type-erased value onto a typed attribute. A null
   * source or a source of another type is refused with `false`, and the
   * attribute is left as it was. The attribute's identity and type never
   * change.
   */
  function CopyValue(dst: Attribute, src: Option<Value>): (r: (bool, Attribute))
    ensures r.1.id == dst.id && KindOf(r.1.value) == KindOf(dst.value)
    ensures r.0 ==> src.Some? && r.1.value == src.value
    ensures !r.0 ==> r.1 == dst
    ensures src.Some? && KindOf(src.value) == KindOf(dst.value) ==> r.0
  {
    if src.Some? && KindOf(src.value) == KindOf(dst.value) then (true, dst.(value := src.value))
    else (false, dst)
  }
}
