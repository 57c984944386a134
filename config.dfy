/** The configuration container of config/config.go: a `Config` is a Go map from key to
    dynamically-typed value, read by lookups and typed accessors and changed in place
    by `Set`. */
module Configuration {
  import opened Values

  /** A `Config`. Go's map is a reference: `entries` is the map it refers to, and
      `isNil` says that the `Config` is the nil map (the zero value `var c Config`),
      which reads as empty and panics when written. */
  class Config {
    var entries: Entries
    var isNil: bool

    ghost predicate Valid()
      reads this
    {
      isNil ==> entries == map[]
    }

    /** `var c Config` */
    constructor Nil()
      ensures Valid() && isNil && entries == map[]
    {
      entries := map[];
      isNil := true;
    }

    /** `Config{}` */
    constructor Empty()
      ensures Valid() && !isNil && entries == map[]
    {
      entries := map[];
      isNil := false;
    }

    /** A `Config` over an existing map, such as the one `GetSubConfig` returns. */
    constructor Of(m: Entries)
      ensures Valid() && !isNil && entries == m
    {
      entries := m;
      isNil := false;
    }

    /** `Get`: the stored value and a nil error, or a nil value and `ErrNoSuchKey`. */
    function Get(key: string): (r: Pair<Value>)
      reads this
      ensures r.err == ErrNoSuchKey <==> key !in entries
      ensures key in entries ==> r == Pair(entries[key], NoError)
      ensures key !in entries ==> r.value == Null
    {
      if key in entries then Pair(entries[key], NoError) else Pair(Null, ErrNoSuchKey)
    }

    /** `GetString`: `""` and `ErrNoSuchKey` on a miss; on a hit the stored string, and a
        panic when the stored value is not a string. */
    function GetString(key: string): (r: Outcome<Pair<string>>)
      reads this
      ensures key !in entries ==> r == Return(Pair("", ErrNoSuchKey))
      ensures key in entries ==> (r.Return? <==> entries[key].Str?)
      ensures key in entries && r.Return? ==> r.value == Pair(entries[key].str, NoError)
      ensures r.IsFailure() ==> key in entries && r == Panic(BadAssertion(StringType, TypeOf(entries[key])))
    {
      if key !in entries then Return(Pair("", ErrNoSuchKey))
      else
        var s :- AssertString(entries[key]);
        Return(Pair(s, NoError))
    }

    /** `GetInt64`: `0` and `ErrNoSuchKey` on a miss; on a hit the stored float64
        truncated toward zero, and a panic for any other dynamic type, a native int64
        included. */
    function GetInt64(key: string): (r: Outcome<Pair<int64>>)
      reads this
      requires key in entries ==> NumberFitsInt64(entries[key])
      ensures key !in entries ==> r == Return(Pair(0, ErrNoSuchKey))
      ensures key in entries ==> (r.Return? <==> entries[key].Number?)
      ensures key in entries && r.Return? ==>
        r.value.err == NoError && r.value.value as int == TruncateTowardZero(entries[key].num)
      ensures r.IsFailure() ==> key in entries && r == Panic(BadAssertion(Float64Type, TypeOf(entries[key])))
    {
      if key !in entries then Return(Pair(0, ErrNoSuchKey))
      else
        var n :- Float64ToInt64(entries[key]);
        Return(Pair(n, NoError))
    }

    /** `GetUint64`: as `GetInt64`, converting to uint64. */
    function GetUint64(key: string): (r: Outcome<Pair<uint64>>)
      reads this
      requires key in entries ==> NumberFitsUint64(entries[key])
      ensures key !in entries ==> r == Return(Pair(0, ErrNoSuchKey))
      ensures key in entries ==> (r.Return? <==> entries[key].Number?)
      ensures key in entries && r.Return? ==>
        r.value.err == NoError && r.value.value as int == TruncateTowardZero(entries[key].num)
      ensures r.IsFailure() ==> key in entries && r == Panic(BadAssertion(Float64Type, TypeOf(entries[key])))
    {
      if key !in entries then Return(Pair(0, ErrNoSuchKey))
      else
        var n :- Float64ToUint64(entries[key]);
        Return(Pair(n, NoError))
    }

    /** `GetSubConfig`: an empty `Config` and the lookup error on a miss; on a hit the
        nested map's entries, and a panic when the stored value is not a map. */
    function GetSubConfig(key: string): (r: Outcome<Pair<Entries>>)
      reads this
      ensures key !in entries ==> r == Return(Pair(map[], ErrNoSuchKey))
      ensures key in entries ==> (r.Return? <==> entries[key].Obj?)
      ensures key in entries && r.Return? ==> r.value == Pair(entries[key].fields, NoError)
      ensures r.IsFailure() ==> key in entries && r == Panic(BadAssertion(MapType, TypeOf(entries[key])))
    {
      var lookup := Get(key);
      if lookup.err != NoError then Return(Pair(map[], lookup.err))
      else
        var sc :- AssertMap(lookup.value);
        Return(Pair(sc, NoError))
    }

    /** `GetRequired`: `Get`'s value when `Get` reports no error; otherwise the process
        exits with status 1 (after logging the missing key). */
    function GetRequired(key: string): (r: Outcome<Value>)
      reads this
      ensures r.Return? <==> Get(key).err == NoError
      ensures r.Return? ==> r.value == Get(key).value
      ensures r.IsFailure() ==> r == Exit(1)
    {
      var lookup := Get(key);
      if lookup.err != NoError then Exit(1) else Return(lookup.value)
    }

    /** `GetRequiredSubConfig` */
    function GetRequiredSubConfig(key: string): (r: Outcome<Entries>)
      reads this
      ensures key !in entries ==> r == Exit(1)
      ensures key in entries ==> (r.Return? <==> entries[key].Obj?)
      ensures key in entries && r.Return? ==> r.value == entries[key].fields
      ensures key in entries && r.IsFailure() ==> r == Panic(BadAssertion(MapType, TypeOf(entries[key])))
    {
      var v :- GetRequired(key);
      AssertMap(v)
    }

    /** `GetRequiredString` */
    function GetRequiredString(key: string): (r: Outcome<string>)
      reads this
      ensures key !in entries ==> r == Exit(1)
      ensures key in entries ==> (r.Return? <==> entries[key].Str?)
      ensures key in entries && r.Return? ==> r.value == entries[key].str
      ensures key in entries && r.IsFailure() ==> r == Panic(BadAssertion(StringType, TypeOf(entries[key])))
    {
      var v :- GetRequired(key);
      AssertString(v)
    }

    /** `GetRequiredInt64`: a native int64 unchanged, a float64 truncated toward zero,
        a panic for anything else. */
    function GetRequiredInt64(key: string): (r: Outcome<int64>)
      reads this
      requires key in entries ==> NumberFitsInt64(entries[key])
      ensures key !in entries ==> r == Exit(1)
      ensures key in entries ==> (r.Return? <==> entries[key].Int64? || entries[key].Number?)
      ensures key in entries && entries[key].Int64? ==> r == Return(entries[key].i64)
      ensures key in entries && entries[key].Number? ==>
        r.Return? && r.value as int == TruncateTowardZero(entries[key].num)
      ensures key in entries && r.IsFailure() ==> r == Panic(BadAssertion(Float64Type, TypeOf(entries[key])))
    {
      var v :- GetRequired(key);
      CoerceInt64(v)
    }

    /** `GetRequiredUint64`: a native uint64 unchanged, a float64 truncated toward zero,
        a panic for anything else. */
    function GetRequiredUint64(key: string): (r: Outcome<uint64>)
      reads this
      requires key in entries ==> NumberFitsUint64(entries[key])
      ensures key !in entries ==> r == Exit(1)
      ensures key in entries ==> (r.Return? <==> entries[key].Uint64? || entries[key].Number?)
      ensures key in entries && entries[key].Uint64? ==> r == Return(entries[key].u64)
      ensures key in entries && entries[key].Number? ==>
        r.Return? && r.value as int == TruncateTowardZero(entries[key].num)
      ensures key in entries && r.IsFailure() ==> r == Panic(BadAssertion(Float64Type, TypeOf(entries[key])))
    {
      var v :- GetRequired(key);
      CoerceUint64(v)
    }

    /** `GetRequiredStringSlice`: the stored `[]interface{}` with every element asserted
        to a string, in order; the first element that is not a string panics. */
    method GetRequiredStringSlice(key: string) returns (r: Outcome<seq<string>>)
      ensures key !in entries ==> r == Exit(1)
      ensures key in entries && !entries[key].Arr? ==> r == Panic(BadAssertion(SliceType, TypeOf(entries[key])))
      ensures key in entries && entries[key].Arr? ==> r == AssertEach(entries[key].elems, AssertString)
    {
      var v := GetRequired(key);
      if v.IsFailure() {
        return v.PropagateFailure();
      }
      var slice := AssertSlice(v.value);
      if slice.IsFailure() {
        return slice.PropagateFailure();
      }
      var val := slice.value;
      var out: seq<string> := [];
      for i := 0 to |val|
        invariant |out| == i
        invariant forall j | 0 <= j < i :: AssertString(val[j]) == Return(out[j])
      {
        var e := AssertString(val[i]);
        if e.IsFailure() {
          assert FirstFailure(val, AssertString, i);
          return e.PropagateFailure();
        }
        out := out + [e.value];
      }
      ghost var whole := AssertEach(val, AssertString);
      assert whole.Return? && whole.value == out;
      return Return(out);
    }

    /** `GetRequiredUint64Slice`: every element asserted to a native uint64; a float64
        element panics like any other non-uint64 one. */
    method GetRequiredUint64Slice(key: string) returns (r: Outcome<seq<uint64>>)
      ensures key !in entries ==> r == Exit(1)
      ensures key in entries && !entries[key].Arr? ==> r == Panic(BadAssertion(SliceType, TypeOf(entries[key])))
      ensures key in entries && entries[key].Arr? ==> r == AssertEach(entries[key].elems, AssertUint64)
    {
      var v := GetRequired(key);
      if v.IsFailure() {
        return v.PropagateFailure();
      }
      var slice := AssertSlice(v.value);
      if slice.IsFailure() {
        return slice.PropagateFailure();
      }
      var val := slice.value;
      var out: seq<uint64> := [];
      for i := 0 to |val|
        invariant |out| == i
        invariant forall j | 0 <= j < i :: AssertUint64(val[j]) == Return(out[j])
      {
        var e := AssertUint64(val[i]);
        if e.IsFailure() {
          assert FirstFailure(val, AssertUint64, i);
          return e.PropagateFailure();
        }
        out := out + [e.value];
      }
      ghost var whole := AssertEach(val, AssertUint64);
      assert whole.Return? && whole.value == out;
      return Return(out);
    }

    /** `GetRequiredInt64Slice`: every element asserted to a native int64; a float64
        element panics like any other non-int64 one. */
    method GetRequiredInt64Slice(key: string) returns (r: Outcome<seq<int64>>)
      ensures key !in entries ==> r == Exit(1)
      ensures key in entries && !entries[key].Arr? ==> r == Panic(BadAssertion(SliceType, TypeOf(entries[key])))
      ensures key in entries && entries[key].Arr? ==> r == AssertEach(entries[key].elems, AssertInt64)
    {
      var v := GetRequired(key);
      if v.IsFailure() {
        return v.PropagateFailure();
      }
      var slice := AssertSlice(v.value);
      if slice.IsFailure() {
        return slice.PropagateFailure();
      }
      var val := slice.value;
      var out: seq<int64> := [];
      for i := 0 to |val|
        invariant |out| == i
        invariant forall j | 0 <= j < i :: AssertInt64(val[j]) == Return(out[j])
      {
        var e := AssertInt64(val[i]);
        if e.IsFailure() {
          assert FirstFailure(val, AssertInt64, i);
          return e.PropagateFailure();
        }
        out := out + [e.value];
      }
      ghost var whole := AssertEach(val, AssertInt64);
      assert whole.Return? && whole.value == out;
      return Return(out);
    }

    /** `GetRequiredInt64Slice` with each element coerced the way `GetRequiredInt64`
        coerces a single value: a native int64 as it is, a float64 truncated toward zero.
        A JSON-decoded array of numbers then reads back as integers. */
    method GetRequiredInt64SliceCoerced(key: string) returns (r: Outcome<seq<int64>>)
      requires key in entries && entries[key].Arr? ==> forall v | v in entries[key].elems :: NumberFitsInt64(v)
      ensures key !in entries ==> r == Exit(1)
      ensures key in entries && !entries[key].Arr? ==> r == Panic(BadAssertion(SliceType, TypeOf(entries[key])))
      ensures key in entries && entries[key].Arr? ==> r == AssertEach(entries[key].elems, CoerceInt64)
    {
      var v := GetRequired(key);
      if v.IsFailure() {
        return v.PropagateFailure();
      }
      var slice := AssertSlice(v.value);
      if slice.IsFailure() {
        return slice.PropagateFailure();
      }
      var val := slice.value;
      var out: seq<int64> := [];
      for i := 0 to |val|
        invariant |out| == i
        invariant forall j | 0 <= j < i :: CoerceInt64(val[j]) == Return(out[j])
      {
        var e := CoerceInt64(val[i]);
        if e.IsFailure() {
          assert FirstFailure(val, CoerceInt64, i);
          return e.PropagateFailure();
        }
        out := out + [e.value];
      }
      ghost var whole := AssertEach(val, CoerceInt64);
      assert whole.Return? && whole.value == out;
      return Return(out);
    }

    /** `GetRequiredUint64Slice` with each element coerced the way `GetRequiredUint64`
        coerces a single value. */
    method GetRequiredUint64SliceCoerced(key: string) returns (r: Outcome<seq<uint64>>)
      requires key in entries && entries[key].Arr? ==> forall v | v in entries[key].elems :: NumberFitsUint64(v)
      ensures key !in entries ==> r == Exit(1)
      ensures key in entries && !entries[key].Arr? ==> r == Panic(BadAssertion(SliceType, TypeOf(entries[key])))
      ensures key in entries && entries[key].Arr? ==> r == AssertEach(entries[key].elems, CoerceUint64)
    {
      var v := GetRequired(key);
      if v.IsFailure() {
        return v.PropagateFailure();
      }
      var slice := AssertSlice(v.value);
      if slice.IsFailure() {
        return slice.PropagateFailure();
      }
      var val := slice.value;
      var out: seq<uint64> := [];
      for i := 0 to |val|
        invariant |out| == i
        invariant forall j | 0 <= j < i :: CoerceUint64(val[j]) == Return(out[j])
      {
        var e := CoerceUint64(val[i]);
        if e.IsFailure() {
          assert FirstFailure(val, CoerceUint64, i);
          return e.PropagateFailure();
        }
        out := out + [e.value];
      }
      ghost var whole := AssertEach(val, CoerceUint64);
      assert whole.Return? && whole.value == out;
      return Return(out);
    }

    /** `Set`: inserts or overwrites one entry; on the nil map it panics and changes
        nothing. */
    method Set(key: string, value: Value) returns (r: Outcome<()>)
      requires Valid()
      modifies this
      ensures Valid() && isNil == old(isNil)
      ensures old(isNil) ==> r == Panic(NilMapAssignment) && entries == old(entries)
      ensures !old(isNil) ==> r == Return(()) && entries == old(entries)[key := value]
      ensures !old(isNil) ==> Get(key) == Pair(value, NoError)
      ensures forall k | k != key :: Get(k) == old(Get(k))
    {
      if isNil {
        return Panic(NilMapAssignment);
      }
      entries := entries[key := value];
      return Return(());
    }
  }
}
