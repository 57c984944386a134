# Configuration container (package `config`)

A Dafny model of the Go package `config` of golang-utils: a `Config` is a Go map from
string keys to dynamically-typed values, read through `Get`, the typed accessors
`GetString`, `GetInt64`, `GetUint64`, `GetSubConfig`, the fail-fast `GetRequired*`
family, and changed in place by `Set`.

- `values.dfy` (module `Values`): the closed value type `Value` (null, bool, a JSON
  number decoded as float64, native int64 and uint64, string, `[]interface{}`,
  `map[string]interface{}`), the dynamic Go type a type assertion sees (`TypeOf`), the
  outcome of a Go call (`Outcome`: it returns, it panics with a `Fault`, or it ends the
  process with `os.Exit`), Go's `(T, error)` result (`Pair`), float64-to-integer
  truncation, the type assertions `v.(T)`, and `AssertEach`, the specification of the
  loops that assert every element of a slice.
- `config.dfy` (module `Configuration`): class `Config` holding the map (`entries`) and
  whether it is the nil map (`isNil`). Lookups and typed accessors are functions of the
  map; `Set` and the three slice accessors, which the source writes as a map write and
  as loops appending to `out`, are methods; each loop is proved against `AssertEach`.
- `properties.dfy` (module `ConfigProperties`): how the accessors relate: each required
  accessor turns the optional one's `ErrNoSuchKey` into exit status 1 and otherwise
  agrees with it, integers decoded from JSON read back unchanged, stored arrays read
  back in order, and the slice finding below.
- `scenarios.dfy` (module `Scenarios`): callers that use only the contracts on concrete
  configurations (set then get, nil map, nested lookup, string slices).

Where the package's stated intent and its code differ, the model follows the code:
- a stored value of the wrong dynamic type is a panic (a failed type assertion), not a
  returned type-mismatch error, in the optional accessors as in the required ones;
- `GetInt64` and `GetUint64` accept only a float64; a native int64 or uint64 panics,
  while `GetRequiredInt64` and `GetRequiredUint64` accept both;
- writing to the nil `Config` (the zero value) panics, which `Set` does not guard.

## Model

| member | source | states |
|---|---|---|
| `Values.TruncateTowardZero` | config/config.go:85 | converting a float64 to an integer type discards the fraction toward zero: the result is within 1 of the input, on the input's side of zero |
| `Values.AssertEach` | config/config.go:152-177 | asserting each element of a slice in order succeeds exactly when every element's assertion does, with one result per element in order; otherwise it fails as the first failing element does |
| `Configuration.Config.Nil` | config/config.go:14 | the zero-value `Config` is the nil map and holds no entries |
| `Configuration.Config.Empty` | config/config.go:101 | `Config{}` is an empty, writable map |
| `Configuration.Config.Of` | config/config.go:104 | a `Config` built over a nested map has exactly that map's entries |
| `Configuration.Config.Get` | config/config.go:64-70 | the error is `ErrNoSuchKey` exactly when the key is absent; a present key yields its stored value unmodified with a nil error, an absent one a nil value |
| `Configuration.Config.GetString` | config/config.go:72-78 | absent key: `""` and `ErrNoSuchKey`, never a panic; present key: succeeds exactly when the value is a string and returns it, otherwise panics with the failed string assertion |
| `Configuration.Config.GetInt64` | config/config.go:80-86 | absent key: `0` and `ErrNoSuchKey`; present key: succeeds exactly when the value is a float64 and returns it truncated toward zero, otherwise panics with the failed float64 assertion |
| `Configuration.Config.GetUint64` | config/config.go:88-94 | as `GetInt64`, converting to uint64 |
| `Configuration.Config.GetSubConfig` | config/config.go:98-105 | absent key: an empty `Config` and `ErrNoSuchKey`; present key: succeeds exactly when the value is a nested map and returns exactly that map's entries, otherwise panics |
| `Configuration.Config.GetRequired` | config/config.go:117-124 | returns exactly when `Get` reports no error, and then `Get`'s value; otherwise the process exits with status 1 |
| `Configuration.Config.GetRequiredSubConfig` | config/config.go:109-112 | absent key: exit status 1; present key: the nested map's entries when the value is a map, otherwise a panic |
| `Configuration.Config.GetRequiredString` | config/config.go:126-128 | absent key: exit status 1; present key: the string when the value is a string, otherwise a panic |
| `Configuration.Config.GetRequiredInt64` | config/config.go:130-139 | absent key: exit status 1; a native int64 is returned unchanged, a float64 truncated toward zero, anything else panics with the failed float64 assertion |
| `Configuration.Config.GetRequiredUint64` | config/config.go:141-150 | absent key: exit status 1; a native uint64 is returned unchanged, a float64 truncated toward zero, anything else panics |
| `Configuration.Config.GetRequiredStringSlice` | config/config.go:152-159 | absent key: exit status 1; a non-slice value panics; a slice yields, in order and one for one, its elements asserted to strings, or the panic of the first non-string element |
| `Configuration.Config.GetRequiredUint64Slice` | config/config.go:161-168 | as the string slice accessor, each element asserted to a native uint64 |
| `Configuration.Config.GetRequiredInt64Slice` | config/config.go:170-177 | as the string slice accessor, each element asserted to a native int64 |
| `Configuration.Config.GetRequiredInt64SliceCoerced` | config/config.go:170-177 | corrected slice accessor: each element coerced as `GetRequiredInt64` coerces one value |
| `Configuration.Config.GetRequiredUint64SliceCoerced` | config/config.go:161-168 | corrected slice accessor: each element coerced as `GetRequiredUint64` coerces one value |
| `Configuration.Config.Set` | config/config.go:180-182 | on a non-nil map the entry for the key becomes the value, so `Get` returns it with a nil error; every other key keeps its presence or absence and its value; on the nil map it panics and changes nothing |
| `ConfigProperties.RequiredCollapsesGet` | config/config.go:117-124 | `GetRequired` agrees with `Get` except that `ErrNoSuchKey` becomes exit status 1, and it exits exactly when the key is absent |
| `ConfigProperties.RequiredStringCollapsesGetString` | config/config.go:126-128 | `GetRequiredString` agrees with `GetString` (same string, same panic) except that the miss becomes exit status 1 |
| `ConfigProperties.RequiredSubConfigCollapsesGetSubConfig` | config/config.go:109-112 | `GetRequiredSubConfig` agrees with `GetSubConfig` except that the miss becomes exit status 1 |
| `ConfigProperties.RequiredInt64ExtendsGetInt64` | config/config.go:130-139 | `GetRequiredInt64` agrees with `GetInt64` up to the miss, except on a native int64, which `GetInt64` rejects with a panic and `GetRequiredInt64` returns |
| `ConfigProperties.RequiredUint64ExtendsGetUint64` | config/config.go:141-150 | the same relation between `GetRequiredUint64` and `GetUint64` |
| `ConfigProperties.TruncateKeepsIntegers` | config/config.go:137 | truncation returns every integer unchanged |
| `ConfigProperties.DecodedInt64RoundTrip` | config/config.go:136-137 | an integral JSON number in int64 range reads back as that integer through `GetInt64` and `GetRequiredInt64` |
| `ConfigProperties.DecodedUint64RoundTrip` | config/config.go:147-148 | an integral JSON number in uint64 range reads back through `GetUint64` and `GetRequiredUint64` |
| `ConfigProperties.TruncatesTowardZero` | config/config.go:85 | 3.9 reads as 3 and -3.9 as -3: truncation, not rounding |
| `ConfigProperties.AssertEachInvertsWrap` | config/config.go:154-157 | when asserting one element undoes storing it, asserting every element of a stored sequence gives back that sequence |
| `ConfigProperties.StringSliceRoundTrip` | config/config.go:152-159 | a stored array of strings reads back in order through `GetRequiredStringSlice` |
| `ConfigProperties.Int64SliceRoundTrip` | config/config.go:170-177 | a stored array of native int64s reads back through `GetRequiredInt64Slice` |
| `ConfigProperties.Uint64SliceRoundTrip` | config/config.go:161-168 | a stored array of native uint64s reads back through `GetRequiredUint64Slice` |
| `ConfigProperties.Int64SliceRejectsDecodedNumbers` | config/config.go:174 | any array holding a float64 makes `GetRequiredInt64Slice` panic |
| `ConfigProperties.Uint64SliceRejectsDecodedNumbers` | config/config.go:165 | any array holding a float64 makes `GetRequiredUint64Slice` panic |
| `ConfigProperties.DecodedInt64SliceRoundTrip` | config/config.go:170-177 | the corrected int64 slice accessor reads a decoded array of integers back as those integers |
| `ConfigProperties.DecodedUint64SliceRoundTrip` | config/config.go:161-168 | the corrected uint64 slice accessor reads a decoded array of integers back as those integers |
| `ConfigProperties.DecodedPortsExample` | config/config.go:174 | on the decoded JSON array `[80, 443]` the int64 slice accessor as written panics, the corrected one returns `[80, 443]` |

## Left out

- `Loads`, `Load`, `Dumps` (config/config.go:26-53): JSON parsing and printing by `encoding/json` and file reading by `ioutil.ReadFile`; the model starts from the decoded map.
- `Debug` (config/config.go:56-60): logging only, over the map in an unspecified order.
- The log line `GetRequired` writes before exiting: only the exit status 1 is modelled.
- IEEE-754 details of float64: a JSON number is an exact real, so rounding at decode time, NaN and infinities are not modelled.
- Configuration.Config.GetInt64 requires that a stored float64 truncates into int64 range, because Go leaves the result of an out-of-range conversion to the implementation.
- Configuration.Config.GetUint64 requires that a stored float64 truncates into uint64 range, for the same reason.
- Configuration.Config.GetRequiredInt64 requires the same in-range truncation as `GetInt64`.
- Configuration.Config.GetRequiredUint64 requires the same in-range truncation as `GetUint64`.
- Configuration.Config.GetSubConfig returns the nested map as a value: in Go the returned `Config` shares its storage with the parent, so a later `Set` on it changes the parent too; that aliasing is not modelled.
- Configuration.Config.GetRequiredSubConfig returns the nested map as a value in the same way, so its sharing of storage with the parent is not modelled either.
- Dynamic types outside the closed `Value` type (an `int`, a `[]string` or a `Config` stored through `Set`) are not modelled; each would only ever fail the assertions modelled here.
- A nil nested map is not modelled: `Obj(fields)` always stands for a writable map. In Go a typed nil `map[string]interface{}` stored through `Set` passes the map assertion of `GetSubConfig` and `GetRequiredSubConfig`, which then return a nil `Config` with a nil error, and a later `Set` on that `Config` panics; the model captures neither.
- Concurrent use: the package gives no synchronisation and the model is sequential.

## Findings

| source | as written | input that shows it | evidently intended | confidence | as-written member | corrected member |
|---|---|---|---|---|---|---|
| config/config.go:170-177 | each element is asserted `e.(int64)` | a configuration loaded from `{"ports": [80, 443]}`: the decoder stores float64 elements, so `GetRequiredInt64Slice("ports")` panics | coerce each element as `GetRequiredInt64` does (lines 130-139, whose comment notes that JSON loads float64) | medium; not executed | `Configuration.Config.GetRequiredInt64Slice`, `ConfigProperties.DecodedPortsExample` | `Configuration.Config.GetRequiredInt64SliceCoerced`, `ConfigProperties.DecodedInt64SliceRoundTrip` |
| config/config.go:161-168 | each element is asserted `e.(uint64)` | a configuration loaded from `{"ports": [80, 443]}`: `GetRequiredUint64Slice("ports")` panics on the first float64 element | coerce each element as `GetRequiredUint64` does (lines 141-150) | medium; not executed | `Configuration.Config.GetRequiredUint64Slice`, `ConfigProperties.Uint64SliceRejectsDecodedNumbers` | `Configuration.Config.GetRequiredUint64SliceCoerced`, `ConfigProperties.DecodedUint64SliceRoundTrip` |
