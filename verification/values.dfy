/** The engine's field types and the dynamically typed values that flow through
    the service: query parameters going in, result columns coming out. */
module Values {

  const MinInt64: int := -0x8000_0000_0000_0000
  const MaxInt64: int := 0x7fff_ffff_ffff_ffff
  const MaxUint64: int := 0xffff_ffff_ffff_ffff

  /** Go's `int64` (and `int` on a 64-bit platform). */
  type Int64 = x: int | MinInt64 <= x <= MaxInt64

  /** An IEEE 754 binary64 number, kept as its bit pattern; no arithmetic on it is modelled. */
  datatype Float64 = Float64(bits: bv64)

  /** A field type of the engine. The four named arms are the types the service
      treats specially; every other type name (TIMESTAMP, RECORD, ...) is Other. */
  datatype FieldType =
    | IntegerField
    | StringField
    | BooleanField
    | FloatField
    | OtherField(name: string)

  /** A dynamically typed value: Go's `interface{}` as the engine client fills it.
      VNull is the nil interface; VOther stands for any value of a Go type the
      service never inspects (dates, byte slices, nested records, ...). */
  datatype Value =
    | VNull
    | VInt(i: Int64)
    | VStr(s: string)
    | VBool(b: bool)
    | VFloat(f: Float64)
    | VOther(kind: string)

  /** True for the field types whose values the service checks with a type assertion. */
  predicate IsAsserted(t: FieldType) {
    !t.OtherField?
  }

  /** True when the Go dynamic type of `v` is the one a type assertion for `t` expects. */
  predicate HasKind(v: Value, t: FieldType) {
    match t
    case IntegerField => v.VInt?
    case StringField => v.VStr?
    case BooleanField => v.VBool?
    case FloatField => v.VFloat?
    case OtherField(_) => true
  }
}
