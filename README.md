# EventCenter in Dafny

A model of `EventCenter`, a type-directed publish/subscribe registry for Swift.
Callers register handlers of a parameter type `T`, optionally under an
`Equatable` key and optionally on a `DispatchQueue`. A `post` with generic
type argument `T` reaches every handler whose parameter type is exactly `T` and
whose key matches the post's. Each handler is either called inline or scheduled on its
queue.

The model has three modules.

- `Selection` (`selection.dfy`) is the order-preserving `filter` that
  `unregister` uses to rebuild the record list and `post` uses to pick records.
  `KeptIndices` describes the same selection by positions, and
  `FilterByIndices` ties the two together. Every "exactly these records, in
  registration order" below means this.
- `Events` (`events.dfy`) holds the records (`ObserverInfo`) and the closures
  of the source as functions. It also holds the class `EventCenter`, whose field
  `observers` is the record list. Its `register` family appends one record.
  Its `unregister` family reassigns the list to a filtered copy. `Post` and
  `PostKeyed` loop over a snapshot of the list and build a trace. Each entry of
  the trace is a `Call(handlerId, Inline | Queued(queue))`, in the order the
  source invokes or schedules the handlers.
- `Scenarios` (`scenarios.dfy`) replays the test suite's asserted scenarios as
  client code of the class.

Abstractions:

- A Swift type is a type tag (a string).
- A handler `(T) -> Void` is `Handler(id, paramType)`.
- A stored key is `Option<Key>`, where `Key(keyType, value)` carries the tag of
  the key's type. The cast `key as? U` is `KeyAs`, which succeeds only on an exact tag match (see "## Left out" for subclass and bridged keys). Equality of two keys of the
  same type is equality of their values.
- The cast `handler as? ((T) -> Void)` and `equalsHandlerType` are both the
  test `handler.paramType == T`. Matching is exact: no subtype of `T` matches.
- A queue is `Main` (`DispatchQueue.main`) or `Other(name)`. No queue is
  `None`.
- A weak observer reference is an observer id. The operations that look at
  liveness (`unregister`) take the set `live` of ids whose objects are still
  allocated. Ids are never reused.

Three behaviours of the code a caller might not expect, which the model
follows:

- `post` never looks at liveness (`Pod/Classes/EventCenter.swift:55-80`). A
  record whose observer was deallocated keeps receiving posts until the next
  `unregister` of any observer prunes it (`Scenarios.DeadObserverUntilPruned`).
- `unregister(observer, key:)` keeps a record only if its observer is alive,
  is not `observer`, and its key is not `key` (`:51`). So it drops every record
  of `observer` whatever its key. It also drops every record of any other
  observer whose key has the type of `key` and equals it
  (`Events.UnregisterKeyedKeeps`, `Events.UnregisterKeyedIsUnregisterThenKey`).
- Matching uses the static generic argument `T` of the `post` call, not the
  runtime type of the posted value (`:57`, `:69` and `:83` test only
  `((T) -> Void)`). A `ChildEvent` posted through a variable of type `MyEvent`
  reaches the `MyEvent` handlers. `Post` and `PostKeyed` therefore take the
  type argument, not a value.

## Model

| member | source | states |
|---|---|---|
| `Events.EventCenter.constructor` | Pod/Classes/EventCenter.swift:12-13 | a new center has no records |
| `Events.EventCenter.Register` | Pod/Classes/EventCenter.swift:15-17 | appends one keyless record with no queue; earlier records unchanged and in order; same as `RegisterOnQueue` with no queue |
| `Events.EventCenter.RegisterOnMainThread` | Pod/Classes/EventCenter.swift:19-21 | appends one keyless record on the main queue; same as `RegisterOnQueue` with `Main` |
| `Events.EventCenter.RegisterOnQueue` | Pod/Classes/EventCenter.swift:23-27 | appends exactly one record at the end, with the given observer, handler (and so handler type) and queue and no key; earlier records unchanged |
| `Events.EventCenter.RegisterKeyed` | Pod/Classes/EventCenter.swift:29-31 | appends one record with the key and no queue; same as `RegisterKeyedOnQueue` with no queue |
| `Events.EventCenter.RegisterKeyedOnMainThread` | Pod/Classes/EventCenter.swift:33-35 | appends one record with the key on the main queue |
| `Events.EventCenter.RegisterKeyedOnQueue` | Pod/Classes/EventCenter.swift:37-41 | appends exactly one record at the end, with the given observer, key, handler and queue; earlier records unchanged |
| `Events.EventCenter.Unregister` | Pod/Classes/EventCenter.swift:43-47 | the new list is the order-preserving filter of the old one by "observer alive and not `observer`" |
| `Events.EventCenter.UnregisterKeyed` | Pod/Classes/EventCenter.swift:49-53 | the new list is the order-preserving filter by "observer alive, not `observer`, key not `key`" |
| `Events.EventCenter.Post` | Pod/Classes/EventCenter.swift:55-65 | the loop over a snapshot produces exactly the trace `Deliveries` of the records at the call; the method modifies nothing and takes no liveness |
| `Events.EventCenter.PostKeyed` | Pod/Classes/EventCenter.swift:67-80 | the loop, including its `continue` on a differing key, produces exactly the trace `KeyedDeliveries` of the records at the call; modifies nothing |
| `Selection.Filter` | Pod/Classes/EventCenter.swift:45 | the filtered list is no longer than the input and holds only input elements that pass the test |
| `Selection.FilterByIndices` | Pod/Classes/EventCenter.swift:45 | the filter holds exactly the elements at the passing positions, each once, in their original order |
| `Selection.FilterIdempotent` | Pod/Classes/EventCenter.swift:51 | filtering twice by the same test equals filtering once |
| `Selection.FilterKeepsAll` | Pod/Classes/EventCenter.swift:45 | when every element passes, the filter returns the list unchanged |
| `Selection.FilterCompose` | Pod/Classes/EventCenter.swift:51 | two filters in a row equal one filter by the conjunction of their tests |
| `Events.KeyAsMatches` | Pod/Classes/EventCenter.swift:69-72 | a stored key cast to the lookup key's type with `KeyAs` (the cast `as? U` at `:51` and `:69`) equals the lookup key exactly when the stored key is that key (same type, equal value) |
| `Events.PostDeliversExactly` | Pod/Classes/EventCenter.swift:55-65 | `post(obj)` reaches a record iff it passes `PostMatch` (the guard at `:57`, with `EqualsHandlerType` for `equalsHandlerType` at `:82-84`): it has no key and its handler type is exactly `T`, once each, in registration order; by `CallOf` (`:58-62`) called inline iff the record has no queue, otherwise scheduled on its queue |
| `Events.KeyedPostDeliversExactly` | Pod/Classes/EventCenter.swift:67-80 | `post(obj, key:)` reaches a record iff it passes `KeyedPostMatch` (the guard at `:69` with `KeyAs` and `EqualsHandlerType`, and the `continue` at `:70-72`): its key has the lookup key's type and equals it and its handler type is exactly `T`, once each, in order; by `CallOf` (`:73-77`) inline or on its queue |
| `Events.MatchingIsExact` | Pod/Classes/EventCenter.swift:82-84 | for any records and any key, a record whose handler parameter type is not `T` is reached by neither `post(obj)` nor `post(obj, key:)` with type argument `T`: `equalsHandlerType` admits no other type |
| `Events.PostChannelsDisjoint` | Pod/Classes/EventCenter.swift:57 | no record is reached by both a plain post and a keyed post |
| `Events.PostAfterRegister` | Pod/Classes/EventCenter.swift:25 | after a registration, a plain post reaches what it reached before and then the new record, iff it matches |
| `Events.KeyedPostAfterRegister` | Pod/Classes/EventCenter.swift:39 | the same for a keyed post |
| `Events.UnregisterKeepsLiveOthers` | Pod/Classes/EventCenter.swift:43-47 | `unregister(o)` keeps exactly the records passing `UnregisterKeep` (the `filter` closure at `:45`): those whose observer is alive and is not `o`, in order: keyed and keyless records of `o` and dead-observer records all go |
| `Events.UnregisterKeyedKeeps` | Pod/Classes/EventCenter.swift:49-53 | `unregister(o, key:)` keeps exactly the records passing `UnregisterKeyedKeep` (the `filter` closure at `:51`): those whose observer is alive, is not `o`, and whose key is not `key`, in order |
| `Events.UnregisterKeyedIsUnregisterThenKey` | Pod/Classes/EventCenter.swift:49-53 | `unregister(o, key:)` equals `unregister(o)` followed by dropping every record with key `key` |
| `Events.UnregisterIdempotent` | Pod/Classes/EventCenter.swift:45 | `unregister(o)` twice with the same live set equals once |
| `Events.UnregisterKeyedIdempotent` | Pod/Classes/EventCenter.swift:51 | `unregister(o, key:)` twice with the same live set equals once |
| `Events.UnregisterUnchanged` | Pod/Classes/EventCenter.swift:45 | when no record is `o`'s and all observers are alive, `unregister(o)` changes nothing |
| `Events.UnregisterKeyedUnchanged` | Pod/Classes/EventCenter.swift:51 | when no record is `o`'s or has key `key` and all observers are alive, `unregister(o, key:)` changes nothing |
| `Events.PostAfterUnregister` | Pod/Classes/EventCenter.swift:43-65 | after `unregister(o)` a post reaches what it reached before minus `o`'s and dead observers' records, in the same order |
| `Events.KeyedPostAfterUnregisterKeyed` | Pod/Classes/EventCenter.swift:49-80 | after `unregister(o, key:)` no post with `key` reaches anyone |
| `Scenarios.RegisterAndUnregister` | Example/Tests/Tests.swift:17-37 | register, post, unregister, post, register, post: one inline call, none, one inline call; two in all |
| `Scenarios.OnlyCorrectType` | Example/Tests/Tests.swift:39-55 | an `Int` post reaches only the `Int` handler and a `String` post only the `String` handler |
| `Scenarios.ClassStructAndEnumEvents` | Example/Tests/Tests.swift:57-97 | a class post reaches both class handlers and not the subclass handler; the subclass post reaches only its own; six calls in all |
| `Scenarios.QueuedHandlers` | Example/Tests/Tests.swift:101-135 | one post schedules the main-queue handler, calls the plain one inline and schedules the other-queue one, in registration order |
| `Scenarios.KeyedRegisterAndUnregister` | Example/Tests/Tests.swift:140-160 | keyed register, post, unregister with the key, post, register under an enum key, post: one call, none, one call; two in all |
| `Scenarios.OnlyCorrectKey` | Example/Tests/Tests.swift:162-187 | five keyed posts over three keyed handlers give three calls: only type and key (type and value) agreeing deliver |
| `Scenarios.DeadObserverUntilPruned` | Pod/Classes/EventCenter.swift:45-65 | a deallocated observer's handler still receives a post; after any `unregister` it receives none |

## Left out

- The serial `operationQueue.sync` around every mutation and the unsynchronised read of `observers` in `post`: the model is a single-threaded sequence of operations.
- Asynchronous execution on a queue: scheduling is only a `Queued(queue)` entry in the trace. Thread identity and timing, which the queue test checks, are not modelled.
- The posted value and the handlers' bodies: handlers are opaque ids and a trace does not carry the payload. Handlers that call `register`, `unregister` or `post` again are not modelled. Each post scans a copy of the records taken at its start, as Swift's `for info in observers` does.
- Swift reflection and casts (`Mirror`, `as? ((T) -> Void)`, `as? U`): replaced by exact tag equality, as above. Keys whose `==` is not equality of a representation are not modelled. In Swift, `key as? U` also succeeds when the stored key is an instance of a subclass of a class `U`, or when its type bridges to `U` (`NSString` and `String`); a keyed post would then reach that record and `unregister(observer, key:)` would remove it, but `KeyAs` fails in both cases, so the model reaches and removes neither.
- The mechanics of `weak var observer`: replaced by the explicit `live` set, with ids never reused.
- The shared `defaultCenter` instance: every scenario builds its own `EventCenter`.
- Example/EventCenter/ViewController.swift is demo code that only calls the public operations; it is not part of this model.
