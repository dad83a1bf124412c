/**
  Vocabulary shared by the cache engine, its options, its session builder and
  its stores: Go's `error` results, durations, and the dynamically typed values
  that travel between a loader, a store and a caller's destination.
 */
module Common {

  /** Go's `time.Duration`: a count of nanoseconds. No arithmetic is done on
      durations anywhere in the engine, so the 64-bit width never matters. */
  type Duration = int

  const Second: Duration := 1_000_000_000
  const Minute: Duration := 60 * Second

  datatype Option<T> = None | Some(value: T) {
    function GetOr(default: T): T {
      match this
      case Some(v) => v
      case None => default
    }
  }

  /** The errors the engine and the stores can return. Loaders and failing
      backends may return any error at all, which `Other` stands for. */
  datatype Error =
    | KeyIsEmpty        // errors.New("key is empty") in GetCacheWithOptions
    | ConditionErr      // "condition are not met": caching switched off for the call
    | KeyNorFound       // "key are not exist": the store holds nothing under the key
    | TypeMismatch      // "get data is not expected as value"
    | Other(message: string)

  /** The `error` result of a Go call: `nil` or some error. */
  datatype Status = Nil | Fail(error: Error)

  /** An abstract dynamic type, standing for what `reflect.TypeOf` returns. */
  type TypeTag = string

  /** The contents of a value, abstracted from its Go struct fields. */
  type Payload = string

  /** A non-nil value together with its dynamic type. */
  datatype Value = Value(typ: TypeTag, payload: Payload)

  /** The caller's destination: a non-nil pointer of a fixed type whose pointee
      the engine and the stores fill in. */
  datatype Dest = Dest(typ: TypeTag, payload: Payload)

  /** `copier.Copy(dest, v)`, taken as plain assignment of the contents: the
      destination keeps its type and receives the value's payload. */
  function CopyInto(dest: Dest, v: Value): (r: Dest)
    ensures r.typ == dest.typ && r.payload == v.payload
  {
    Dest(dest.typ, v.payload)
  }
}
