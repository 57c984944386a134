/** Clients of `Config` that use only the contracts: what a caller of the package can
    conclude about concrete configurations. */
module Scenarios {
  import opened Values
  import opened Configuration
  import opened ConfigProperties

  method SetThenGet() {
    var c := new Config.Empty();
    assert c.Get("missing") == Pair(Null, ErrNoSuchKey);
    var r := c.Set("k", Str("v"));
    assert r == Return(());
    assert c.Get("k") == Pair(Str("v"), NoError);
    assert c.Get("missing") == Pair(Null, ErrNoSuchKey);
    assert c.GetString("k") == Return(Pair("v", NoError));
    assert c.GetRequiredString("missing") == Exit(1);
  }

  method SetOnNilConfig() {
    var c := new Config.Nil();
    var r := c.Set("k", Bool(true));
    assert r == Panic(NilMapAssignment);
    assert c.Get("k") == Pair(Null, ErrNoSuchKey);
  }

  method TypedLookups() {
    var c := new Config.Of(map["x" := Number(42.0), "y" := Number(3.9), "s" := Number(1.0)]);
    DecodedInt64RoundTrip(c, "x", 42);
    assert c.GetInt64("x") == Return(Pair(42, NoError));
    TruncatesTowardZero(c, "y", 3.9);
    assert c.GetInt64("y") == Return(Pair(3, NoError));
    assert c.GetString("s") == Panic(BadAssertion(StringType, Float64Type));
  }

  method NestedLookup() {
    var c := new Config.Of(map["x" := Obj(map["a" := Number(1.0)])]);
    var sub := c.GetSubConfig("x");
    assert sub == Return(Pair(map["a" := Number(1.0)], NoError));
    var sc := new Config.Of(sub.value.value);
    DecodedInt64RoundTrip(sc, "a", 1);
    assert sc.GetInt64("a") == Return(Pair(1, NoError));
  }

  method StringSlices() {
    var c := new Config.Of(map["arr" := Arr([Str("a"), Str("b")]), "nums" := Arr([Number(1.0), Number(2.0)])]);
    var strs := c.GetRequiredStringSlice("arr");
    assert strs.Return? && |strs.value| == 2 && strs.value[0] == "a" && strs.value[1] == "b";
    assert strs.value == [strs.value[0], strs.value[1]];
    assert strs == Return(["a", "b"]);
    var nums := c.GetRequiredStringSlice("nums");
    assert nums == Panic(BadAssertion(StringType, Float64Type));
  }
}
