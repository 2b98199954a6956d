/**
 The asserted scenarios of the example test suite, replayed against the model
 as client code of `EventCenter`. Each method returns the traces of its posts,
 and its contract says which handlers each post reached and how; the number of
 handler calls the tests count is the total length of those traces. The lemma
 calls between the steps unfold the traces one registration at a time.
 */
module Scenarios {
  import opened Selection
  import opened Events

  const SELF: ObserverId := 1

  function Plain(id: nat, t: TypeTag): Record
  {
    Record(SELF, None, Handler(id, t), None)
  }

  function Keyed(id: nat, key: Key, t: TypeTag): Record
  {
    Record(SELF, Some(key), Handler(id, t), None)
  }

  /** Register an `Int` handler, post 99, unregister, post 100, register
      again, post 101: two deliveries in all. */
  method RegisterAndUnregister() returns (first: seq<Call>, second: seq<Call>, third: seq<Call>)
    ensures first == [Call(1, Inline)]
    ensures second == []
    ensures third == [Call(2, Inline)]
    // two handler calls in all, the count the test expects
  {
    var ec := new EventCenter();
    var r1, r2 := Plain(1, "Int"), Plain(2, "Int");
    ec.Register(SELF, Handler(1, "Int"));
    assert ec.observers == [r1];
    assert Deliveries([r1], "Int") == [Call(1, Inline)] by {
      PostAfterRegister([], r1, "Int");
      assert [] + [r1] == [r1];
    }
    first := ec.Post("Int");

    ec.Unregister(SELF, {SELF});
    assert Survivors([r1], SELF, {SELF}) == [] by {
      FilterAppend([], r1, UnregisterKeep(SELF, {SELF}));
      assert [] + [r1] == [r1];
    }
    second := ec.Post("Int");

    ec.Register(SELF, Handler(2, "Int"));
    assert ec.observers == [r2];
    assert Deliveries([r2], "Int") == [Call(2, Inline)] by {
      PostAfterRegister([], r2, "Int");
      assert [] + [r2] == [r2];
    }
    third := ec.Post("Int");
  }

  /** An `Int` handler and a `String` handler: each post reaches only the
      handler of its own type. */
  method OnlyCorrectType() returns (ints: seq<Call>, strings: seq<Call>)
    ensures ints == [Call(1, Inline)]
    ensures strings == [Call(2, Inline)]
  {
    var ec := new EventCenter();
    ec.Register(SELF, Handler(1, "Int"));
    ec.Register(SELF, Handler(2, "String"));
    var r1, r2 := Plain(1, "Int"), Plain(2, "String");
    assert ec.observers == [r1, r2];
    assert Deliveries([r1, r2], "Int") == [Call(1, Inline)] by {
      Unfold2(r1, r2, "Int");
    }
    assert Deliveries([r1, r2], "String") == [Call(2, Inline)] by {
      Unfold2(r1, r2, "String");
    }
    ints := ec.Post("Int");
    strings := ec.Post("String");
  }

  /** Handlers for a class, its subclass, a struct and an enum, plus a second
      handler for the class: a post of the subclass does not reach the class's
      handlers and a post of the class does not reach the subclass's. */
  method ClassStructAndEnumEvents() returns (my: seq<Call>, child: seq<Call>, struct: seq<Call>, success: seq<Call>, error: seq<Call>)
    ensures my == [Call(1, Inline), Call(5, Inline)]
    ensures child == [Call(2, Inline)]
    ensures struct == [Call(3, Inline)]
    ensures success == [Call(4, Inline)] && error == [Call(4, Inline)]
    // six handler calls in all: five to the closures, one to the method handler
  {
    var ec := new EventCenter();
    ec.Register(SELF, Handler(1, "MyEvent"));
    ec.Register(SELF, Handler(2, "ChildEvent"));
    ec.Register(SELF, Handler(3, "MyEventStruct"));
    ec.Register(SELF, Handler(4, "EnumEvent"));
    ec.Register(SELF, Handler(5, "MyEvent"));
    var r1, r2, r3, r4, r5 := Plain(1, "MyEvent"), Plain(2, "ChildEvent"), Plain(3, "MyEventStruct"), Plain(4, "EnumEvent"), Plain(5, "MyEvent");
    assert ec.observers == [r1, r2, r3, r4, r5];
    assert Deliveries([r1, r2, r3, r4, r5], "MyEvent") == [Call(1, Inline), Call(5, Inline)] by {
      Unfold5(r1, r2, r3, r4, r5, "MyEvent");
    }
    assert Deliveries([r1, r2, r3, r4, r5], "ChildEvent") == [Call(2, Inline)] by {
      Unfold5(r1, r2, r3, r4, r5, "ChildEvent");
    }
    assert Deliveries([r1, r2, r3, r4, r5], "MyEventStruct") == [Call(3, Inline)] by {
      Unfold5(r1, r2, r3, r4, r5, "MyEventStruct");
    }
    assert Deliveries([r1, r2, r3, r4, r5], "EnumEvent") == [Call(4, Inline)] by {
      Unfold5(r1, r2, r3, r4, r5, "EnumEvent");
    }
    my := ec.Post("MyEvent");
    child := ec.Post("ChildEvent");
    struct := ec.Post("MyEventStruct");
    success := ec.Post("EnumEvent");
    error := ec.Post("EnumEvent");
  }

  /** A main-queue handler, a plain handler and a handler on another queue,
      all for `Int`: one post schedules the first, calls the second inline and
      schedules the third, in that order. */
  method QueuedHandlers() returns (trace: seq<Call>)
    ensures trace == [Call(1, Queued(Main)), Call(2, Inline), Call(3, Queued(Other("global")))]
  {
    var ec := new EventCenter();
    ec.RegisterOnMainThread(SELF, Handler(1, "Int"));
    ec.Register(SELF, Handler(2, "Int"));
    ec.RegisterOnQueue(SELF, Some(Other("global")), Handler(3, "Int"));
    var r1 := Record(SELF, None, Handler(1, "Int"), Some(Main));
    var r2 := Plain(2, "Int");
    var r3 := Record(SELF, None, Handler(3, "Int"), Some(Other("global")));
    assert ec.observers == [r1, r2, r3];
    assert Deliveries([r1, r2, r3], "Int") == [Call(1, Queued(Main)), Call(2, Inline), Call(3, Queued(Other("global")))] by {
      Unfold3(r1, r2, r3, "Int");
    }
    trace := ec.Post("Int");
  }

  /** Register an `Int` handler under the `String` key "key", post with it,
      unregister with it, post again, then register under an enum key and post
      with that: two deliveries in all. */
  method KeyedRegisterAndUnregister() returns (first: seq<Call>, second: seq<Call>, third: seq<Call>)
    ensures first == [Call(1, Inline)]
    ensures second == []
    ensures third == [Call(2, Inline)]
  {
    var ec := new EventCenter();
    var key, success := Key("String", "key"), Key("EnumKey", "success");
    var r1, r2 := Keyed(1, key, "Int"), Keyed(2, success, "Int");
    ec.RegisterKeyed(SELF, key, Handler(1, "Int"));
    assert ec.observers == [r1];
    assert KeyedDeliveries([r1], "Int", key) == [Call(1, Inline)] by {
      KeyedPostAfterRegister([], r1, "Int", key);
      assert [] + [r1] == [r1];
    }
    first := ec.PostKeyed("Int", key);

    ec.UnregisterKeyed(SELF, key, {SELF});
    assert KeyedSurvivors([r1], SELF, key, {SELF}) == [] by {
      FilterAppend([], r1, UnregisterKeyedKeep(SELF, key, {SELF}));
      assert [] + [r1] == [r1];
    }
    second := ec.PostKeyed("Int", key);

    ec.RegisterKeyed(SELF, success, Handler(2, "Int"));
    assert ec.observers == [r2];
    assert KeyedDeliveries([r2], "Int", success) == [Call(2, Inline)] by {
      KeyedPostAfterRegister([], r2, "Int", success);
      assert [] + [r2] == [r2];
    }
    third := ec.PostKeyed("Int", success);
  }

  /** Three keyed handlers and five keyed posts: a post reaches a handler only
      when both the payload type and the key (its type and its value) agree,
      three deliveries in all. */
  method OnlyCorrectKey() returns (a: seq<Call>, b: seq<Call>, c: seq<Call>, d: seq<Call>, e: seq<Call>)
    ensures a == [Call(1, Inline)]
    ensures b == [Call(2, Inline)]
    ensures c == [Call(3, Inline)]
    ensures d == [] && e == []
  {
    var ec := new EventCenter();
    var success, error := Key("EnumKey", "success"), Key("EnumKey", "error");
    var yes, maybe := Key("String", "yes!"), Key("String", "yes?");
    ec.RegisterKeyed(SELF, success, Handler(1, "Int"));
    ec.RegisterKeyed(SELF, success, Handler(2, "String"));
    ec.RegisterKeyed(SELF, yes, Handler(3, "String"));
    assert ec.observers == [Keyed(1, success, "Int"), Keyed(2, success, "String"), Keyed(3, yes, "String")];
    KeyedTracesOfThree();
    a := ec.PostKeyed("Int", success);
    b := ec.PostKeyed("String", success);
    c := ec.PostKeyed("String", yes);
    d := ec.PostKeyed("String", maybe);
    e := ec.PostKeyed("String", error);
  }

  /** A record whose observer has been deallocated still receives posts: only
      the next `unregister`, of any observer, prunes it. */
  method DeadObserverUntilPruned() returns (before: seq<Call>, after: seq<Call>)
    ensures before == [Call(1, Inline)]
    ensures after == []
  {
    var ec := new EventCenter();
    var gone: ObserverId := 2;
    ec.Register(gone, Handler(1, "Int"));
    var r := Record(gone, None, Handler(1, "Int"), None);
    assert ec.observers == [r];
    assert Deliveries([r], "Int") == [Call(1, Inline)] by {
      PostAfterRegister([], r, "Int");
      assert [] + [r] == [r];
    }
    // `gone` has been deallocated: only SELF is still alive.
    before := ec.Post("Int");
    ec.Unregister(SELF, {SELF});
    assert Survivors([r], SELF, {SELF}) == [] by {
      FilterAppend([], r, UnregisterKeep(SELF, {SELF}));
      assert [] + [r] == [r];
    }
    after := ec.Post("Int");
  }

  // The traces of posts over short record lists, one registration at a time.

  lemma Unfold2(r1: Record, r2: Record, t: TypeTag)
    ensures Deliveries([r1, r2], t) == Deliveries([], t)
      + (if r1.key == None && r1.handler.paramType == t then [CallOf(r1)] else [])
      + (if r2.key == None && r2.handler.paramType == t then [CallOf(r2)] else [])
  {
    PostAfterRegister([], r1, t);
    PostAfterRegister([r1], r2, t);
    assert [] + [r1] == [r1];
    assert [r1] + [r2] == [r1, r2];
  }

  lemma Unfold3(r1: Record, r2: Record, r3: Record, t: TypeTag)
    ensures Deliveries([r1, r2, r3], t) == Deliveries([], t)
      + (if r1.key == None && r1.handler.paramType == t then [CallOf(r1)] else [])
      + (if r2.key == None && r2.handler.paramType == t then [CallOf(r2)] else [])
      + (if r3.key == None && r3.handler.paramType == t then [CallOf(r3)] else [])
  {
    Unfold2(r1, r2, t);
    PostAfterRegister([r1, r2], r3, t);
    assert [r1, r2] + [r3] == [r1, r2, r3];
  }

  lemma Unfold5(r1: Record, r2: Record, r3: Record, r4: Record, r5: Record, t: TypeTag)
    ensures Deliveries([r1, r2, r3, r4, r5], t) == Deliveries([], t)
      + (if r1.key == None && r1.handler.paramType == t then [CallOf(r1)] else [])
      + (if r2.key == None && r2.handler.paramType == t then [CallOf(r2)] else [])
      + (if r3.key == None && r3.handler.paramType == t then [CallOf(r3)] else [])
      + (if r4.key == None && r4.handler.paramType == t then [CallOf(r4)] else [])
      + (if r5.key == None && r5.handler.paramType == t then [CallOf(r5)] else [])
  {
    Unfold3(r1, r2, r3, t);
    PostAfterRegister([r1, r2, r3], r4, t);
    PostAfterRegister([r1, r2, r3, r4], r5, t);
    assert [r1, r2, r3] + [r4] == [r1, r2, r3, r4];
    assert [r1, r2, r3, r4] + [r5] == [r1, r2, r3, r4, r5];
  }

  /** The five keyed posts over the three keyed records of `OnlyCorrectKey`. */
  lemma KeyedTracesOfThree()
    ensures var success, error := Key("EnumKey", "success"), Key("EnumKey", "error");
      var yes, maybe := Key("String", "yes!"), Key("String", "yes?");
      var s := [Keyed(1, success, "Int"), Keyed(2, success, "String"), Keyed(3, yes, "String")];
      && KeyedDeliveries(s, "Int", success) == [Call(1, Inline)]
      && KeyedDeliveries(s, "String", success) == [Call(2, Inline)]
      && KeyedDeliveries(s, "String", yes) == [Call(3, Inline)]
      && KeyedDeliveries(s, "String", maybe) == []
      && KeyedDeliveries(s, "String", error) == []
  {
    var success, error := Key("EnumKey", "success"), Key("EnumKey", "error");
    var yes, maybe := Key("String", "yes!"), Key("String", "yes?");
    var r1, r2, r3 := Keyed(1, success, "Int"), Keyed(2, success, "String"), Keyed(3, yes, "String");
    UnfoldKeyed3(r1, r2, r3, "Int", success);
    UnfoldKeyed3(r1, r2, r3, "String", success);
    UnfoldKeyed3(r1, r2, r3, "String", yes);
    UnfoldKeyed3(r1, r2, r3, "String", maybe);
    UnfoldKeyed3(r1, r2, r3, "String", error);
  }

  lemma UnfoldKeyed3(r1: Record, r2: Record, r3: Record, t: TypeTag, key: Key)
    ensures KeyedDeliveries([r1, r2, r3], t, key) == KeyedDeliveries([], t, key)
      + (if r1.key == Some(key) && r1.handler.paramType == t then [CallOf(r1)] else [])
      + (if r2.key == Some(key) && r2.handler.paramType == t then [CallOf(r2)] else [])
      + (if r3.key == Some(key) && r3.handler.paramType == t then [CallOf(r3)] else [])
  {
    KeyedPostAfterRegister([], r1, t, key);
    KeyedPostAfterRegister([r1], r2, t, key);
    KeyedPostAfterRegister([r1, r2], r3, t, key);
    assert [] + [r1] == [r1];
    assert [r1] + [r2] == [r1, r2];
    assert [r1, r2] + [r3] == [r1, r2, r3];
  }
}
