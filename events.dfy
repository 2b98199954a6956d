/**
 The EventCenter registry and dispatcher: an ordered list of registration
 records, appended to by the `register` family, rebuilt by an order-preserving
 filter in the `unregister` family, and scanned in order by `post`, which picks
 the records whose handler parameter type is exactly the post's type argument
 and whose key matches, and either calls each handler inline or schedules it on
 the record's queue.

 Swift types are type tags: a handler carries the tag of its parameter type, a
 stored key carries the tag of its type, and the runtime casts of the source
 (`as? ((T) -> Void)`, `Mirror(...).subjectType is ((T) -> Void).Type`,
 `as? U`) become tag comparisons. Weak observer references become observer ids
 together with the set of ids still alive, passed to the operations that look at
 liveness. Handlers are opaque ids; a post returns the trace of what it invoked
 or scheduled.
 */
module Events {
  import opened Selection

  datatype Option<T> = None | Some(value: T)

  /** The identity of a Swift type (a payload type or a key type). */
  type TypeTag = string

  /** The identity of an observer object. */
  type ObserverId = nat

  /** An `Equatable` key value together with the tag of its type. Two values of
      the same key type are equal exactly when their `value`s are. */
  datatype Key = Key(keyType: TypeTag, value: string)

  /** An execution queue; `Main` is `DispatchQueue.main`. */
  datatype Queue = Main | Other(name: string)

  /** A type-erased handler `(T) -> Void`: an identity and the tag of `T`. */
  datatype Handler = Handler(id: nat, paramType: TypeTag)

  /** `ObserverInfo`: one record per `register` call. */
  datatype Record = Record(observer: ObserverId, key: Option<Key>, handler: Handler, queue: Option<Queue>)

  /** How a post reached a handler: called before the scan moved on, or
      scheduled with `async` on a queue. */
  datatype Mode = Inline | Queued(queue: Queue)

  /** One entry of a post's trace. */
  datatype Call = Call(handler: nat, mode: Mode)

  /** `equalsHandlerType`: the handler's parameter type is exactly `T`. The
      cast `info.handler as? ((T) -> Void)` that guards it is the same test. */
  predicate EqualsHandlerType(handler: Handler, t: TypeTag)
  {
    handler.paramType == t
  }

  /** `key as? U`: the stored key's value when there is one of type `U`. */
  function KeyAs(key: Option<Key>, u: TypeTag): Option<string>
  {
    match key
    case Some(k) => if k.keyType == u then Some(k.value) else None
    case None => None
  }

  /** The `filter` closure of `unregister(observer)`. */
  function UnregisterKeep(observer: ObserverId, live: set<ObserverId>): Record -> bool
  {
    (r: Record) => r.observer in live && r.observer != observer
  }

  /** The `filter` closure of `unregister(observer, key:)`. */
  function UnregisterKeyedKeep(observer: ObserverId, key: Key, live: set<ObserverId>): Record -> bool
  {
    (r: Record) => r.observer in live && r.observer != observer && KeyAs(r.key, key.keyType) != Some(key.value)
  }

  /** The test `post(obj)` applies to each record, with `T` the type argument. */
  function PostMatch(t: TypeTag): Record -> bool
  {
    (r: Record) => r.key == None && EqualsHandlerType(r.handler, t)
  }

  /** The tests `post(obj, key:)` applies to each record. */
  function KeyedPostMatch(t: TypeTag, key: Key): Record -> bool
  {
    (r: Record) => KeyAs(r.key, key.keyType) == Some(key.value) && EqualsHandlerType(r.handler, t)
  }

  /** What delivering to one matched record does. */
  function CallOf(r: Record): Call
  {
    match r.queue
    case Some(q) => Call(r.handler.id, Queued(q))
    case None => Call(r.handler.id, Inline)
  }

  function CallsOf(rs: seq<Record>): (cs: seq<Call>)
    ensures |cs| == |rs|
    ensures forall j :: 0 <= j < |rs| ==> cs[j] == CallOf(rs[j])
  {
    if rs == [] then [] else CallsOf(rs[..|rs| - 1]) + [CallOf(rs[|rs| - 1])]
  }

  /** The records left by `unregister(observer)`. */
  function Survivors(s: seq<Record>, observer: ObserverId, live: set<ObserverId>): seq<Record>
  {
    Filter(s, UnregisterKeep(observer, live))
  }

  /** The records left by `unregister(observer, key:)`. */
  function KeyedSurvivors(s: seq<Record>, observer: ObserverId, key: Key, live: set<ObserverId>): seq<Record>
  {
    Filter(s, UnregisterKeyedKeep(observer, key, live))
  }

  /** The trace of `post(obj)` with type argument `t` over the records `s`. */
  function Deliveries(s: seq<Record>, t: TypeTag): seq<Call>
  {
    CallsOf(Filter(s, PostMatch(t)))
  }

  /** The trace of `post(obj, key:)` with type argument `t` over the records `s`. */
  function KeyedDeliveries(s: seq<Record>, t: TypeTag, key: Key): seq<Call>
  {
    CallsOf(Filter(s, KeyedPostMatch(t, key)))
  }

  /** The records whose stored key is not `key` (the key test of `unregister(observer, key:)`). */
  function KeyDiffers(key: Key): Record -> bool
  {
    (r: Record) => r.key != Some(key)
  }

  lemma {:induction false} CallsOfAppend(rs: seq<Record>, r: Record)
    ensures CallsOf(rs + [r]) == CallsOf(rs) + [CallOf(r)]
  {
    assert (rs + [r])[..|rs|] == rs;
  }

  /** The key tests of a keyed post: a stored key of the lookup key's type
      that equals it is the lookup key itself. */
  lemma KeyAsMatches(stored: Option<Key>, key: Key)
    ensures KeyAs(stored, key.keyType) == Some(key.value) <==> stored == Some(key)
  {
  }

  // ---------------------------------------------------------------------------
  // post

  /** `post(obj)` reaches exactly the keyless records whose handler parameter
      type is exactly `t`, each once and in registration order; each is called
      inline when the record has no queue and scheduled on its queue otherwise.
      Observer liveness plays no part. */
  lemma {:induction false} PostDeliversExactly(s: seq<Record>, t: TypeTag)
    ensures var d, ix := Deliveries(s, t), KeptIndices(s, PostMatch(t));
      && |d| == |ix|
      && StrictlyIncreasing(ix)
      && (forall i :: 0 <= i < |s| ==> (i in ix <==> s[i].key == None && s[i].handler.paramType == t))
      && (forall j :: 0 <= j < |ix| ==>
            && ix[j] < |s|
            && d[j].handler == s[ix[j]].handler.id
            && (s[ix[j]].queue == None ==> d[j].mode == Inline)
            && (s[ix[j]].queue != None ==> d[j].mode == Queued(s[ix[j]].queue.value)))
  {
    FilterByIndices(s, PostMatch(t));
  }

  /** `post(obj, key:)` reaches exactly the records whose stored key has the
      type of `key` and equals it and whose handler parameter type is exactly
      `t`, each once and in registration order, inline or on their queue. */
  lemma {:induction false} KeyedPostDeliversExactly(s: seq<Record>, t: TypeTag, key: Key)
    ensures var d, ix := KeyedDeliveries(s, t, key), KeptIndices(s, KeyedPostMatch(t, key));
      && |d| == |ix|
      && StrictlyIncreasing(ix)
      && (forall i :: 0 <= i < |s| ==> (i in ix <==> s[i].key == Some(key) && s[i].handler.paramType == t))
      && (forall j :: 0 <= j < |ix| ==>
            && ix[j] < |s|
            && d[j].handler == s[ix[j]].handler.id
            && (s[ix[j]].queue == None ==> d[j].mode == Inline)
            && (s[ix[j]].queue != None ==> d[j].mode == Queued(s[ix[j]].queue.value)))
  {
    FilterByIndices(s, KeyedPostMatch(t, key));
    forall i | 0 <= i < |s|
      ensures KeyedPostMatch(t, key)(s[i]) <==> s[i].key == Some(key) && s[i].handler.paramType == t
    {
      KeyAsMatches(s[i].key, key);
    }
  }

  /** Keyless records never receive keyed posts and keyed records never
      receive plain posts: no record is reached by both kinds of post. */
  lemma {:induction false} PostChannelsDisjoint(s: seq<Record>, t: TypeTag, t': TypeTag, key: Key)
    ensures forall i :: 0 <= i < |s| ==>
      !(i in KeptIndices(s, PostMatch(t)) && i in KeptIndices(s, KeyedPostMatch(t', key)))
  {
    KeptIndicesExact(s, PostMatch(t));
    KeptIndicesExact(s, KeyedPostMatch(t', key));
  }

  /** Handler matching is exact (`equalsHandlerType`): whatever the records and
      the key, a record whose handler parameter type is not `t` is reached by
      neither a plain nor a keyed post with type argument `t`. */
  lemma {:induction false} MatchingIsExact(s: seq<Record>, t: TypeTag, key: Key)
    ensures forall i :: 0 <= i < |s| && s[i].handler.paramType != t ==>
      i !in KeptIndices(s, PostMatch(t)) && i !in KeptIndices(s, KeyedPostMatch(t, key))
  {
    KeptIndicesExact(s, PostMatch(t));
    KeptIndicesExact(s, KeyedPostMatch(t, key));
  }

  /** A record registered after the others is reached after them, and only if
      it matches: delivery order is registration order. */
  lemma {:induction false} PostAfterRegister(s: seq<Record>, r: Record, t: TypeTag)
    ensures Deliveries(s + [r], t) ==
      Deliveries(s, t) + (if r.key == None && r.handler.paramType == t then [CallOf(r)] else [])
  {
    FilterAppend(s, r, PostMatch(t));
    CallsOfAppend(Filter(s, PostMatch(t)), r);
  }

  /** The keyed counterpart of `PostAfterRegister`. */
  lemma {:induction false} KeyedPostAfterRegister(s: seq<Record>, r: Record, t: TypeTag, key: Key)
    ensures KeyedDeliveries(s + [r], t, key) ==
      KeyedDeliveries(s, t, key) + (if r.key == Some(key) && r.handler.paramType == t then [CallOf(r)] else [])
  {
    FilterAppend(s, r, KeyedPostMatch(t, key));
    CallsOfAppend(Filter(s, KeyedPostMatch(t, key)), r);
    KeyAsMatches(r.key, key);
  }

  // ---------------------------------------------------------------------------
  // unregister

  /** `unregister(observer)` keeps exactly the records whose observer is alive
      and is not `observer`, in their order: every record of `observer`, keyed
      or not, and every record of a deallocated observer is dropped. */
  lemma {:induction false} UnregisterKeepsLiveOthers(s: seq<Record>, observer: ObserverId, live: set<ObserverId>)
    ensures var r, ix := Survivors(s, observer, live), KeptIndices(s, UnregisterKeep(observer, live));
      && |r| == |ix|
      && StrictlyIncreasing(ix)
      && (forall j :: 0 <= j < |ix| ==> ix[j] < |s| && r[j] == s[ix[j]])
      && (forall i :: 0 <= i < |s| ==> (i in ix <==> s[i].observer in live && s[i].observer != observer))
  {
    FilterByIndices(s, UnregisterKeep(observer, live));
  }

  /** `unregister(observer, key:)` keeps exactly the records whose observer is
      alive and is not `observer` and whose stored key is not `key`, in their
      order. So it drops every record of `observer` whatever its key, and every
      record of any observer whose key has the type of `key` and equals it. */
  lemma {:induction false} UnregisterKeyedKeeps(s: seq<Record>, observer: ObserverId, key: Key, live: set<ObserverId>)
    ensures var r, ix := KeyedSurvivors(s, observer, key, live), KeptIndices(s, UnregisterKeyedKeep(observer, key, live));
      && |r| == |ix|
      && StrictlyIncreasing(ix)
      && (forall j :: 0 <= j < |ix| ==> ix[j] < |s| && r[j] == s[ix[j]])
      && (forall i :: 0 <= i < |s| ==>
            (i in ix <==> s[i].observer in live && s[i].observer != observer && s[i].key != Some(key)))
  {
    FilterByIndices(s, UnregisterKeyedKeep(observer, key, live));
    forall i | 0 <= i < |s|
      ensures UnregisterKeyedKeep(observer, key, live)(s[i])
          <==> s[i].observer in live && s[i].observer != observer && s[i].key != Some(key)
    {
      KeyAsMatches(s[i].key, key);
    }
  }

  /** `unregister(observer, key:)` is `unregister(observer)` followed by the
      removal of every remaining record whose key is `key`. */
  lemma {:induction false} UnregisterKeyedIsUnregisterThenKey(s: seq<Record>, observer: ObserverId, key: Key, live: set<ObserverId>)
    ensures KeyedSurvivors(s, observer, key, live) == Filter(Survivors(s, observer, live), KeyDiffers(key))
  {
    forall r: Record
      ensures UnregisterKeyedKeep(observer, key, live)(r) == (UnregisterKeep(observer, live)(r) && KeyDiffers(key)(r))
    {
      KeyAsMatches(r.key, key);
    }
    FilterCompose(s, UnregisterKeep(observer, live), KeyDiffers(key), UnregisterKeyedKeep(observer, key, live));
  }

  /** Unregistering twice with the same live set is unregistering once. */
  lemma {:induction false} UnregisterIdempotent(s: seq<Record>, observer: ObserverId, live: set<ObserverId>)
    ensures Survivors(Survivors(s, observer, live), observer, live) == Survivors(s, observer, live)
  {
    FilterIdempotent(s, UnregisterKeep(observer, live));
  }

  /** The keyed counterpart of `UnregisterIdempotent`. */
  lemma {:induction false} UnregisterKeyedIdempotent(s: seq<Record>, observer: ObserverId, key: Key, live: set<ObserverId>)
    ensures KeyedSurvivors(KeyedSurvivors(s, observer, key, live), observer, key, live)
         == KeyedSurvivors(s, observer, key, live)
  {
    FilterIdempotent(s, UnregisterKeyedKeep(observer, key, live));
  }

  /** When no record belongs to `observer` and every observer is alive,
      `unregister(observer)` leaves the records as they were. */
  lemma {:induction false} UnregisterUnchanged(s: seq<Record>, observer: ObserverId, live: set<ObserverId>)
    requires forall i :: 0 <= i < |s| ==> s[i].observer in live && s[i].observer != observer
    ensures Survivors(s, observer, live) == s
  {
    FilterKeepsAll(s, UnregisterKeep(observer, live));
  }

  /** When no record belongs to `observer` or has key `key`, and every
      observer is alive, `unregister(observer, key:)` leaves the records as
      they were. */
  lemma {:induction false} UnregisterKeyedUnchanged(s: seq<Record>, observer: ObserverId, key: Key, live: set<ObserverId>)
    requires forall i :: 0 <= i < |s| ==>
      s[i].observer in live && s[i].observer != observer && s[i].key != Some(key)
    ensures KeyedSurvivors(s, observer, key, live) == s
  {
    forall i | 0 <= i < |s|
      ensures UnregisterKeyedKeep(observer, key, live)(s[i])
    {
      KeyAsMatches(s[i].key, key);
    }
    FilterKeepsAll(s, UnregisterKeyedKeep(observer, key, live));
  }

  /** After `unregister(observer)`, a post reaches exactly the records it
      reached before except those of `observer` and of deallocated observers,
      in the same order. */
  lemma {:induction false} PostAfterUnregister(s: seq<Record>, observer: ObserverId, live: set<ObserverId>, t: TypeTag)
    ensures Deliveries(Survivors(s, observer, live), t) == CallsOf(Survivors(Filter(s, PostMatch(t)), observer, live))
  {
    FilterCommute(s, UnregisterKeep(observer, live), PostMatch(t));
  }

  /** After `unregister(observer, key:)`, a post with `key` reaches nobody,
      whatever its type argument. */
  lemma {:induction false} KeyedPostAfterUnregisterKeyed(s: seq<Record>, observer: ObserverId, key: Key, live: set<ObserverId>, t: TypeTag)
    ensures KeyedDeliveries(KeyedSurvivors(s, observer, key, live), t, key) == []
  {
    var rest := KeyedSurvivors(s, observer, key, live);
    forall i | 0 <= i < |rest|
      ensures !KeyedPostMatch(t, key)(rest[i])
    {
      assert rest[i] in rest;
    }
    FilterDropsAll(rest, KeyedPostMatch(t, key));
  }

  class EventCenter {
    /** The registration records, in registration order. */
    var observers: seq<Record>

    constructor ()
      ensures observers == []
    {
      observers := [];
    }

    /** `register(observer, handler:)`: no queue. */
    method Register(observer: ObserverId, handler: Handler)
      modifies this
      ensures observers == old(observers) + [Record(observer, None, handler, None)]
    {
      RegisterOnQueue(observer, None, handler);
    }

    /** `registerOnMainThread(observer, handler:)`: the main queue. */
    method RegisterOnMainThread(observer: ObserverId, handler: Handler)
      modifies this
      ensures observers == old(observers) + [Record(observer, None, handler, Some(Main))]
    {
      RegisterOnQueue(observer, Some(Main), handler);
    }

    /** `register(observer, queue:, handler:)`: appends one keyless record. */
    method RegisterOnQueue(observer: ObserverId, queue: Option<Queue>, handler: Handler)
      modifies this
      ensures observers == old(observers) + [Record(observer, None, handler, queue)]
    {
      observers := observers + [Record(observer, None, handler, queue)];
    }

    /** `register(observer, key:, handler:)`: no queue. */
    method RegisterKeyed(observer: ObserverId, key: Key, handler: Handler)
      modifies this
      ensures observers == old(observers) + [Record(observer, Some(key), handler, None)]
    {
      RegisterKeyedOnQueue(observer, key, None, handler);
    }

    /** `registerOnMainThread(observer, key:, handler:)`: the main queue. */
    method RegisterKeyedOnMainThread(observer: ObserverId, key: Key, handler: Handler)
      modifies this
      ensures observers == old(observers) + [Record(observer, Some(key), handler, Some(Main))]
    {
      RegisterKeyedOnQueue(observer, key, Some(Main), handler);
    }

    /** `register(observer, key:, queue:, handler:)`: appends one keyed record. */
    method RegisterKeyedOnQueue(observer: ObserverId, key: Key, queue: Option<Queue>, handler: Handler)
      modifies this
      ensures observers == old(observers) + [Record(observer, Some(key), handler, queue)]
    {
      observers := observers + [Record(observer, Some(key), handler, queue)];
    }

    /** `unregister(observer)`; `live` holds the observers not yet deallocated. */
    method Unregister(observer: ObserverId, live: set<ObserverId>)
      modifies this
      ensures observers == Survivors(old(observers), observer, live)
    {
      observers := Filter(observers, UnregisterKeep(observer, live));
    }

    /** `unregister(observer, key:)`; `live` holds the observers not yet deallocated. */
    method UnregisterKeyed(observer: ObserverId, key: Key, live: set<ObserverId>)
      modifies this
      ensures observers == KeyedSurvivors(old(observers), observer, key, live)
    {
      observers := Filter(observers, UnregisterKeyedKeep(observer, key, live));
    }

    /** `post(obj)` with type argument `t`: scans a copy of the records in order
        and invokes or schedules every keyless handler whose parameter type is
        exactly `t`. Liveness is not consulted and the records are not changed. */
    method Post(t: TypeTag) returns (trace: seq<Call>)
      ensures trace == Deliveries(observers, t)
    {
      var snapshot := observers;
      trace := [];
      for i := 0 to |snapshot|
        invariant trace == Deliveries(snapshot[..i], t)
      {
        var info := snapshot[i];
        if info.key == None && EqualsHandlerType(info.handler, t) {
          match info.queue
          case Some(q) =>
            trace := trace + [Call(info.handler.id, Queued(q))];
          case None =>
            trace := trace + [Call(info.handler.id, Inline)];
        }
        assert snapshot[..i + 1] == snapshot[..i] + [info];
        FilterAppend(snapshot[..i], info, PostMatch(t));
      }
      assert snapshot[..|snapshot|] == snapshot;
    }

    /** `post(obj, key:)` with type argument `t`: scans a copy of the records in
        order and invokes or schedules every handler whose parameter type is
        exactly `t` and whose stored key has the type of `key` and equals it. */
    method PostKeyed(t: TypeTag, key: Key) returns (trace: seq<Call>)
      ensures trace == KeyedDeliveries(observers, t, key)
    {
      var snapshot := observers;
      trace := [];
      for i := 0 to |snapshot|
        invariant trace == KeyedDeliveries(snapshot[..i], t, key)
      {
        var info := snapshot[i];
        assert snapshot[..i + 1] == snapshot[..i] + [info];
        FilterAppend(snapshot[..i], info, KeyedPostMatch(t, key));
        var k := KeyAs(info.key, key.keyType);
        if k.Some? && EqualsHandlerType(info.handler, t) {
          if k.value != key.value {
            continue;
          }
          match info.queue
          case Some(q) =>
            trace := trace + [Call(info.handler.id, Queued(q))];
          case None =>
            trace := trace + [Call(info.handler.id, Inline)];
        }
      }
      assert snapshot[..|snapshot|] == snapshot;
    }
  }
}
