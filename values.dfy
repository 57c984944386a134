/** The dynamically-typed values a configuration holds, the outcomes a Go call can have
    (return, panic, process exit) and Go's type assertions on those values.

    Go stores every value as an `interface{}`; this module closes that open type into the
    variants the package produces or inspects: what `encoding/json` decodes (null, bool,
    float64, string, []interface{}, map[string]interface{}) plus the native int64 and uint64
    that the required numeric accessors also accept. */
module Values {

  /** Go's int64 and uint64. */
  newtype int64 = x: int | -0x8000_0000_0000_0000 <= x < 0x8000_0000_0000_0000
  newtype uint64 = x: int | 0 <= x < 0x1_0000_0000_0000_0000

  predicate FitsInt64(n: int) {
    -0x8000_0000_0000_0000 <= n < 0x8000_0000_0000_0000
  }

  predicate FitsUint64(n: int) {
    0 <= n < 0x1_0000_0000_0000_0000
  }

  /** A stored value. `Number` is a JSON number as `encoding/json` decodes it into an
      `interface{}` (a float64), kept here as an exact real. */
  datatype Value =
    | Null
    | Bool(flag: bool)
    | Number(num: real)
    | Int64(i64: int64)
    | Uint64(u64: uint64)
    | Str(str: string)
    | Arr(elems: seq<Value>)
    | Obj(fields: map<string, Value>)

  /** The contents of a `Config`: a map from key to value. */
  type Entries = map<string, Value>

  /** The dynamic Go type of a value, as a type assertion sees it. */
  datatype GoType =
    | NilType       // a nil interface
    | BoolType      // bool
    | Float64Type   // float64
    | Int64Type     // int64
    | Uint64Type    // uint64
    | StringType    // string
    | SliceType     // []interface{}
    | MapType       // map[string]interface{}

  function TypeOf(v: Value): GoType {
    match v
    case Null => NilType
    case Bool(_) => BoolType
    case Number(_) => Float64Type
    case Int64(_) => Int64Type
    case Uint64(_) => Uint64Type
    case Str(_) => StringType
    case Arr(_) => SliceType
    case Obj(_) => MapType
  }

  /** Why a call panics. */
  datatype Fault =
    | BadAssertion(asserted: GoType, actual: GoType)  // `v.(T)` on a value whose dynamic type is not T
    | NilMapAssignment                                 // writing an entry of a nil map

  /** How a Go call ends: it returns a value, it panics, or it ends the process with
      `os.Exit(status)`. A panic or an exit stops the caller too, which is what
      `:-` expresses. */
  datatype Outcome<+T> = Return(value: T) | Panic(fault: Fault) | Exit(status: int) {

    predicate IsFailure() {
      !Return?
    }

    function PropagateFailure<U>(): Outcome<U>
      requires IsFailure()
    {
      if Panic? then Panic(fault) else Exit(status)
    }

    function Extract(): T
      requires Return?
    {
      value
    }
  }

  /** The `error` half of a Go `(T, error)` result: nil or the package's `ErrNoSuchKey`. */
  datatype Error = NoError | ErrNoSuchKey

  /** A Go `(T, error)` result. */
  datatype Pair<+T> = Pair(value: T, err: Error)

  /** Go's conversion of a float64 to an integer type: the fraction is discarded,
      rounding toward zero. */
  function TruncateTowardZero(x: real): (n: int)
    ensures 0.0 <= x ==> n as real <= x < n as real + 1.0
    ensures x < 0.0 ==> n as real - 1.0 < x <= n as real
  {
    if 0.0 <= x then x.Floor else -((-x).Floor)
  }

  /** A float64 held in `v` converts to int64 with a result Go defines (Go leaves the
      result of an out-of-range conversion to the implementation). */
  predicate NumberFitsInt64(v: Value) {
    v.Number? ==> FitsInt64(TruncateTowardZero(v.num))
  }

  predicate NumberFitsUint64(v: Value) {
    v.Number? ==> FitsUint64(TruncateTowardZero(v.num))
  }

  // Go type assertions `v.(T)` on an `interface{}`: the value itself when its dynamic
  // type is T, a panic otherwise.

  function AssertString(v: Value): Outcome<string> {
    if v.Str? then Return(v.str) else Panic(BadAssertion(StringType, TypeOf(v)))
  }

  function AssertFloat64(v: Value): Outcome<real> {
    if v.Number? then Return(v.num) else Panic(BadAssertion(Float64Type, TypeOf(v)))
  }

  function AssertInt64(v: Value): Outcome<int64> {
    if v.Int64? then Return(v.i64) else Panic(BadAssertion(Int64Type, TypeOf(v)))
  }

  function AssertUint64(v: Value): Outcome<uint64> {
    if v.Uint64? then Return(v.u64) else Panic(BadAssertion(Uint64Type, TypeOf(v)))
  }

  function AssertSlice(v: Value): Outcome<seq<Value>> {
    if v.Arr? then Return(v.elems) else Panic(BadAssertion(SliceType, TypeOf(v)))
  }

  function AssertMap(v: Value): Outcome<Entries> {
    if v.Obj? then Return(v.fields) else Panic(BadAssertion(MapType, TypeOf(v)))
  }

  /** `int64(v.(float64))` */
  function Float64ToInt64(v: Value): Outcome<int64>
    requires NumberFitsInt64(v)
  {
    var x :- AssertFloat64(v);
    Return(TruncateTowardZero(x) as int64)
  }

  /** `uint64(v.(float64))` */
  function Float64ToUint64(v: Value): Outcome<uint64>
    requires NumberFitsUint64(v)
  {
    var x :- AssertFloat64(v);
    Return(TruncateTowardZero(x) as uint64)
  }

  /** The type switch of the required int64 accessor: a native int64 as it is, anything
      else through `int64(v.(float64))`. */
  function CoerceInt64(v: Value): Outcome<int64>
    requires NumberFitsInt64(v)
  {
    match v
    case Int64(n) => Return(n)
    case _ => Float64ToInt64(v)
  }

  function CoerceUint64(v: Value): Outcome<uint64>
    requires NumberFitsUint64(v)
  {
    match v
    case Uint64(n) => Return(n)
    case _ => Float64ToUint64(v)
  }

  /** `cast(vs[i])` fails and every element before it passes. */
  ghost predicate FirstFailure<T>(vs: seq<Value>, cast: Value --> Outcome<T>, i: int)
    requires forall v | v in vs :: cast.requires(v)
  {
    && 0 <= i < |vs|
    && cast(vs[i]).IsFailure()
    && forall j | 0 <= j < i :: cast(vs[j]).Return?
  }

  /** A loop `for _, e := range vs { out = append(out, cast(e)) }`: every element is
      converted in order, and the first conversion that panics ends the loop. */
  function AssertEach<T>(vs: seq<Value>, cast: Value --> Outcome<T>): (r: Outcome<seq<T>>)
    requires forall v | v in vs :: cast.requires(v)
    ensures r.Return? <==> forall i | 0 <= i < |vs| :: cast(vs[i]).Return?
    ensures r.Return? ==> |r.value| == |vs| && forall i | 0 <= i < |vs| :: r.value[i] == cast(vs[i]).value
    ensures r.IsFailure() ==> exists i :: FirstFailure(vs, cast, i) && r == cast(vs[i]).PropagateFailure()
  {
    if vs == [] then Return([])
    else
      var head :- cast(vs[0]);
      var tail :- AssertEach(vs[1..], cast);
      Return([head] + tail)
  }
}
