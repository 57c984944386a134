/** What the accessors of config/config.go promise together: the required accessors
    turn a missing key into exit status 1 and otherwise agree with the optional ones,
    numbers decoded from JSON read back as the integers they spell, and a stored array
    reads back as the sequence it was built from. */
module ConfigProperties {
  import opened Values
  import opened Configuration

  /** The required accessor behaves as the optional one, except that the optional
      one's `ErrNoSuchKey` becomes `os.Exit(1)`. */
  ghost predicate Collapses<T>(optional: Outcome<Pair<T>>, required: Outcome<T>) {
    match optional
    case Return(Pair(v, NoError)) => required == Return(v)
    case Return(Pair(_, ErrNoSuchKey)) => required == Exit(1)
    case Panic(f) => required == Panic(f)
    case Exit(s) => required == Exit(s)
  }

  lemma RequiredCollapsesGet(c: Config, key: string)
    ensures Collapses(Return(c.Get(key)), c.GetRequired(key))
    ensures c.GetRequired(key) != Exit(1) <==> key in c.entries
  {
  }

  lemma RequiredStringCollapsesGetString(c: Config, key: string)
    ensures Collapses(c.GetString(key), c.GetRequiredString(key))
  {
  }

  lemma RequiredSubConfigCollapsesGetSubConfig(c: Config, key: string)
    ensures Collapses(c.GetSubConfig(key), c.GetRequiredSubConfig(key))
  {
  }

  /** The required numeric accessors accept everything the optional ones do, and also a
      native integer, on which the optional ones panic. */
  lemma RequiredInt64ExtendsGetInt64(c: Config, key: string)
    requires key in c.entries ==> NumberFitsInt64(c.entries[key])
    ensures key in c.entries && c.entries[key].Int64? ==>
      && c.GetInt64(key) == Panic(BadAssertion(Float64Type, Int64Type))
      && c.GetRequiredInt64(key) == Return(c.entries[key].i64)
    ensures !(key in c.entries && c.entries[key].Int64?) ==>
      Collapses(c.GetInt64(key), c.GetRequiredInt64(key))
  {
  }

  lemma RequiredUint64ExtendsGetUint64(c: Config, key: string)
    requires key in c.entries ==> NumberFitsUint64(c.entries[key])
    ensures key in c.entries && c.entries[key].Uint64? ==>
      && c.GetUint64(key) == Panic(BadAssertion(Float64Type, Uint64Type))
      && c.GetRequiredUint64(key) == Return(c.entries[key].u64)
    ensures !(key in c.entries && c.entries[key].Uint64?) ==>
      Collapses(c.GetUint64(key), c.GetRequiredUint64(key))
  {
  }

  /** Truncation gives back every integer unchanged. */
  lemma {:induction false} TruncateKeepsIntegers(n: int)
    ensures TruncateTowardZero(n as real) == n
  {
    var t := TruncateTowardZero(n as real);
    if 0 <= n {
      assert t <= n < t + 1;
    } else {
      assert t - 1 < n <= t;
    }
  }

  /** An integer decoded from JSON (a float64 with no fraction) reads back as that
      integer through both int64 accessors. */
  lemma DecodedInt64RoundTrip(c: Config, key: string, n: int64)
    requires key in c.entries && c.entries[key] == Number(n as real)
    ensures NumberFitsInt64(c.entries[key])
    ensures c.GetInt64(key) == Return(Pair(n, NoError))
    ensures c.GetRequiredInt64(key) == Return(n)
  {
    TruncateKeepsIntegers(n as int);
  }

  lemma DecodedUint64RoundTrip(c: Config, key: string, n: uint64)
    requires key in c.entries && c.entries[key] == Number(n as real)
    ensures NumberFitsUint64(c.entries[key])
    ensures c.GetUint64(key) == Return(Pair(n, NoError))
    ensures c.GetRequiredUint64(key) == Return(n)
  {
    TruncateKeepsIntegers(n as int);
  }

  /** A fractional number is truncated, not rounded: 3.9 reads as 3 and -3.9 as -3. */
  lemma TruncatesTowardZero(c: Config, key: string, x: real)
    requires key in c.entries && c.entries[key] == Number(x)
    requires x == 3.9 || x == -3.9
    ensures NumberFitsInt64(c.entries[key])
    ensures c.GetInt64(key) == Return(Pair(if x < 0.0 then -3 else 3, NoError))
  {
  }

  /** The array holding `xs`, each element stored by `wrap`. */
  function Wrap<T>(xs: seq<T>, wrap: T -> Value): (vs: seq<Value>)
    ensures |vs| == |xs|
    ensures forall i | 0 <= i < |xs| :: vs[i] == wrap(xs[i])
  {
    if xs == [] then [] else [wrap(xs[0])] + Wrap(xs[1..], wrap)
  }

  /** Asserting every element of an array undoes storing them, when asserting one
      element undoes storing it. */
  lemma {:induction false} AssertEachInvertsWrap<T>(xs: seq<T>, wrap: T -> Value, cast: Value --> Outcome<T>)
    requires forall x :: cast.requires(wrap(x)) && cast(wrap(x)) == Return(x)
    ensures AssertEach(Wrap(xs, wrap), cast) == Return(xs)
  {
    var r := AssertEach(Wrap(xs, wrap), cast);
    assert r.Return?;
    assert r.value == xs;
  }

  /** What a Go string, int64 or uint64 becomes once stored in an `interface{}`. */
  function StoredString(s: string): Value {
    Str(s)
  }

  function StoredInt64(n: int64): Value {
    Int64(n)
  }

  function StoredUint64(n: uint64): Value {
    Uint64(n)
  }

  /** A stored array of strings reads back, in order, through `GetRequiredStringSlice`. */
  lemma StringSliceRoundTrip(ss: seq<string>)
    ensures AssertEach(Wrap(ss, StoredString), AssertString) == Return(ss)
  {
    AssertEachInvertsWrap(ss, StoredString, AssertString);
  }

  /** A stored array of native int64s reads back through `GetRequiredInt64Slice`. */
  lemma Int64SliceRoundTrip(ns: seq<int64>)
    ensures AssertEach(Wrap(ns, StoredInt64), AssertInt64) == Return(ns)
  {
    AssertEachInvertsWrap(ns, StoredInt64, AssertInt64);
  }

  /** A stored array of native uint64s reads back through `GetRequiredUint64Slice`. */
  lemma Uint64SliceRoundTrip(ns: seq<uint64>)
    ensures AssertEach(Wrap(ns, StoredUint64), AssertUint64) == Return(ns)
  {
    AssertEachInvertsWrap(ns, StoredUint64, AssertUint64);
  }

  /** As written, the int64 slice accessor panics on any array that holds a float64,
      which is every non-empty array of numbers `encoding/json` decodes. */
  lemma Int64SliceRejectsDecodedNumbers(vs: seq<Value>, i: int)
    requires 0 <= i < |vs| && vs[i].Number?
    ensures AssertEach(vs, AssertInt64).Panic?
  {
    assert !AssertInt64(vs[i]).Return?;
  }

  lemma Uint64SliceRejectsDecodedNumbers(vs: seq<Value>, i: int)
    requires 0 <= i < |vs| && vs[i].Number?
    ensures AssertEach(vs, AssertUint64).Panic?
  {
    assert !AssertUint64(vs[i]).Return?;
  }

  /** What `encoding/json` decodes the JSON number `n` into. */
  function DecodedInt64(n: int64): Value {
    Number(n as real)
  }

  function DecodedUint64(n: uint64): Value {
    Number(n as real)
  }

  /** The coercing variants read a decoded array of integers back as those integers,
      element by element as the scalar accessors would. */
  lemma DecodedInt64SliceRoundTrip(ns: seq<int64>)
    ensures && (forall v | v in Wrap(ns, DecodedInt64) :: NumberFitsInt64(v))
            && AssertEach(Wrap(ns, DecodedInt64), CoerceInt64) == Return(ns)
  {
    forall n: int64 ensures NumberFitsInt64(DecodedInt64(n)) && CoerceInt64(DecodedInt64(n)) == Return(n) {
      TruncateKeepsIntegers(n as int);
    }
    AssertEachInvertsWrap(ns, DecodedInt64, CoerceInt64);
  }

  lemma DecodedUint64SliceRoundTrip(ns: seq<uint64>)
    ensures && (forall v | v in Wrap(ns, DecodedUint64) :: NumberFitsUint64(v))
            && AssertEach(Wrap(ns, DecodedUint64), CoerceUint64) == Return(ns)
  {
    forall n: uint64 ensures NumberFitsUint64(DecodedUint64(n)) && CoerceUint64(DecodedUint64(n)) == Return(n) {
      TruncateKeepsIntegers(n as int);
    }
    AssertEachInvertsWrap(ns, DecodedUint64, CoerceUint64);
  }

  /** The JSON array `[80, 443]` as `encoding/json` decodes it: the int64 slice accessor
      as written panics on its first element, the coercing variant returns the ports. */
  lemma DecodedPortsExample()
    ensures AssertEach([DecodedInt64(80), DecodedInt64(443)], AssertInt64) == Panic(BadAssertion(Int64Type, Float64Type))
    ensures NumberFitsInt64(DecodedInt64(80)) && NumberFitsInt64(DecodedInt64(443))
    ensures AssertEach([DecodedInt64(80), DecodedInt64(443)], CoerceInt64) == Return([80, 443])
  {
    DecodedInt64SliceRoundTrip([80, 443]);
    assert Wrap([80, 443], DecodedInt64) == [DecodedInt64(80), DecodedInt64(443)];
  }
}
