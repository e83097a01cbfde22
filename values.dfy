/** The dynamic values that travel in an `interface{}`: the numeric kinds
    the metrics carry and the remote-write publisher converts, and the
    other kinds a decoded JSON payload can hold. Floating-point kinds hold
    the exact real they stand for. */
module Values {

  datatype Value =
    | Float64(f: real)
    | Float32(f: real)
    | Int(i: int)
    | Int32(i: int)
    | Int64(i: int)
    | Uint(u: nat)
    | Uint32(u: nat)
    | Uint64(u: nat)
    | Str(s: string)
    | Bool(b: bool)
    | Nil
    /** A JSON object or array, named by its Go type as `%T` prints it. */
    | Composite(typeName: string)
  {
    /** The kinds `toFloat64` accepts. */
    predicate IsNumeric()
    {
      Float64? || Float32? || Int? || Int32? || Int64? || Uint? || Uint32? || Uint64?
    }

    /** The type name `%T` prints for the value. */
    function TypeName(): string
    {
      match this
      case Float64(_) => "float64"
      case Float32(_) => "float32"
      case Int(_) => "int"
      case Int32(_) => "int32"
      case Int64(_) => "int64"
      case Uint(_) => "uint"
      case Uint32(_) => "uint32"
      case Uint64(_) => "uint64"
      case Str(_) => "string"
      case Bool(_) => "bool"
      case Nil => "<nil>"
      case Composite(t) => t
    }
  }
}
