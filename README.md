# PufferDB core, modelled in Dafny

PufferDB is a process-local key-value store. All data lives in memory in a map called the
`nest`. The store mirrors that map to one backing file in the background. Values are of six
kinds: Int, Long, Float, Double, Boolean and String. On disk each value is a tagged protobuf
record (`ValueProto`). Every mutation offers a signal to a conflated channel (`writeChannel`),
which one coroutine consumes. For each signal it receives, the consumer runs `saveProto`: it
snapshots the `nest`, encodes it and overwrites the file. At construction the file is loaded.
A missing file is created empty. Records whose type case is none of the six are dropped.

The model has five modules:

- `Wrappers` (wrappers.dfy): `Option`, `Result` and `Outcome`, which stand in for nulls and exceptions.
- `Codec` (codec.dfy): the six kinds (`Value`), any object a caller may pass (`Any`), the wire
  record (`ValueProto`) with an `OtherCase` tag for unrecognised records, and the codec
  functions `isTypeSupported`, `getValue` and `getProtoValue`.
- `Store` (store.dfy): the `nest` as a `map<string, Value>`. It holds the lookup that `get`
  performs, the filtering decode of `loadProto`, the encoded snapshot of `saveProto`, and the
  errors the operations throw.
- `Persistence` (persistence.dfy): the sequential state machine. Its state has four parts:
  - the store;
  - the channel's single slot;
  - the consumer: starting, waiting in `receive`, holding a signal, or stopped;
  - the file.

  The module also defines traces of operations and proves lemmas about them: coalescing,
  load after save, the end of persistence after a failed write, and the properties of each
  operation.
- `Db` (pufferdb.dfy): the class `PufferDB`. Its fields `nest`, `pending`, `consumer` and
  `file` are updated in place. The new state of `With`, `Put`, `Remove`, `RemoveAll`,
  `LoadProto` and `ConsumeTurn` is `Step` or `Load` of the old state. So every lemma of
  `Persistence` applies to any sequence of calls to these methods and to the read-only `Get`,
  `GetKeys` and `Contains`. `Offer`, `Receive` and `SaveProto` stand for code private to the
  object: the channel's `offer` and `receive`, and the private `saveProto`. Only the methods
  above call them, and the `Persistence` lemmas do not cover calling them directly.

Facts about the code that shape the model:

- `get` has no type-mismatch error. The cast at PufferDB.kt line 54 is unchecked on an erased
  type parameter, so `get` has three outcomes: the stored value, the default, or a
  `PufferException` for an absent key with no default.
- Keys may be any string, including the empty one.
- A pass is one snapshot and one write. `coroutineScope` (line 107) waits for its `async`
  child, so `writeJob?.cancel()` only ever targets a job that has already finished.
- The consumer runs `saveProto` once per signal it receives. When it is suspended in
  `receive`, the first offer goes straight to it, and a later offer fills the slot. So a
  burst of mutations causes one or two writes, not always one.
- A failed write throws out of `saveProto` and out of `consumeEach`, which cancels the
  channel. No pass runs after that. Each later `put`, `remove` or `removeAll` changes the
  `nest` and then throws from `offer`.

## Model

| member | source | states |
|---|---|---|
| `Codec.IsTypeSupported` | core/src/main/kotlin/cafe/adriel/pufferdb/core/PufferDB.kt:135-138 | an object passes the gate exactly when it is one of the six kinds whose encoding decodes back to it, so `put` admits exactly what the file can hold and restore |
| `Codec.GetValue` | core/src/main/kotlin/cafe/adriel/pufferdb/core/PufferDB.kt:140-148 | decoding gives "absent" exactly for a record whose type case is none of the six |
| `Codec.GetProtoValue` | core/src/main/kotlin/cafe/adriel/pufferdb/core/PufferDB.kt:150-161 | encoding is total and never produces an unrecognised type case |
| `Codec.DecodeEncode` | core/src/main/kotlin/cafe/adriel/pufferdb/core/PufferDB.kt:140-161 | round trip: decoding the encoding of any value of the six kinds gives that value back |
| `Codec.DecodesIffEncodes` | core/src/main/kotlin/cafe/adriel/pufferdb/core/PufferDB.kt:140-161 | a record decodes to a value if and only if it is that value's encoding |
| `Codec.EncodeInjective` | core/src/main/kotlin/cafe/adriel/pufferdb/core/PufferDB.kt:150-161 | two different values never encode to the same record |
| `Store.Lookup` | core/src/main/kotlin/cafe/adriel/pufferdb/core/PufferDB.kt:52-57 | `get` returns the stored value for a present key; for an absent key it returns the default if there is one and otherwise fails with `KeyNotFound`; it fails only when there is no default |
| `Store.DecodeNest` | core/src/main/kotlin/cafe/adriel/pufferdb/core/PufferDB.kt:85-93 | the loaded map keeps exactly the file entries whose tag is recognised, and each loaded value is the one its record encodes |
| `Store.EncodeNest` | core/src/main/kotlin/cafe/adriel/pufferdb/core/PufferDB.kt:112-114 | the snapshot written has the store's keys, and each record decodes to the stored value |
| `Store.LoadAfterSave` | core/src/main/kotlin/cafe/adriel/pufferdb/core/PufferDB.kt:89-114 | loading an encoded snapshot reproduces exactly the store that was encoded |
| `Store.SaveAfterLoad` | core/src/main/kotlin/cafe/adriel/pufferdb/core/PufferDB.kt:89-114 | a load then a save returns the file minus its unrecognised records, and nothing else is lost |
| `Persistence.Load` | core/src/main/kotlin/cafe/adriel/pufferdb/core/PufferDB.kt:82-105 | on success the store becomes exactly the decode of the file, so no earlier key survives unless the file holds it; a missing file becomes an empty file; the slot and the consumer are untouched; on failure nothing changes |
| `Persistence.Open` | core/src/main/kotlin/cafe/adriel/pufferdb/core/PufferDB.kt:27-49 | construction over a missing file gives an empty store and an empty file; over an existing file it gives the decoded entries; in both cases the slot is empty and the consumer is just launched; over an unreadable file it fails |
| `Persistence.PassOutcome` | core/src/main/kotlin/cafe/adriel/pufferdb/core/PufferDB.kt:40-46 | a consumer turn commits exactly when the consumer holds a signal and the file is writable; it fails exactly when the consumer holds a signal and the file is not writable, and a failure stops the consumer |
| `Persistence.PutThenGet` | core/src/main/kotlin/cafe/adriel/pufferdb/core/PufferDB.kt:52-62 | after `put(k, v)` of a supported value, `get(k)` returns `v`, the key set gains `k`, and every other key reads as before; the file is unchanged; unless the channel is cancelled, `put` succeeds and the consumer has a signal to act on |
| `Persistence.PutUnsupported` | core/src/main/kotlin/cafe/adriel/pufferdb/core/PufferDB.kt:59-65 | `put` of an unsupported object throws `UnsupportedType` and leaves the store, the slot, the consumer and the file unchanged |
| `Persistence.RemoveKeepsOthers` | core/src/main/kotlin/cafe/adriel/pufferdb/core/PufferDB.kt:72-75 | `remove(k)` makes `k` absent and keeps every other entry; for an absent key the map is unchanged; unless the channel is cancelled, the consumer has a signal to act on |
| `Persistence.RemoveAllEmpties` | core/src/main/kotlin/cafe/adriel/pufferdb/core/PufferDB.kt:77-80 | `removeAll` leaves an empty key set; unless the channel is cancelled, the consumer has a signal to act on |
| `Persistence.MutationsOnlySignal` | core/src/main/kotlin/cafe/adriel/pufferdb/core/PufferDB.kt:59-80 | any run of mutations leaves the file untouched, writes nothing and never stops the consumer; afterwards the consumer has a signal exactly when it had one before, or the channel is live and at least one mutation signalled, however many did |
| `Persistence.QuietTurns` | core/src/main/kotlin/cafe/adriel/pufferdb/core/PufferDB.kt:40-46 | with no signal to act on, any number of consumer turns write nothing and change neither the store nor the file; a waiting consumer stays as it is |
| `Persistence.TurnsWriteAtMostOwed` | core/src/main/kotlin/cafe/adriel/pufferdb/core/PufferDB.kt:35-46 | consumer turns write at most once for the signal the consumer holds plus once for the signal in the single slot, and never change the store |
| `Persistence.BurstWritesAtMostTwice` | core/src/main/kotlin/cafe/adriel/pufferdb/core/PufferDB.kt:35-119 | through the conflated channel, a burst of mutations of any length followed by any number of turns writes the file at most twice, and the turns leave the store as the burst left it |
| `Persistence.DrainTurns` | core/src/main/kotlin/cafe/adriel/pufferdb/core/PufferDB.kt:40-119 | two writable turns on a consumer that has a signal write once or twice; the file then holds the encoding of the store, and the consumer waits with an empty slot |
| `Persistence.WaitingConsumerWritesTwice` | core/src/main/kotlin/cafe/adriel/pufferdb/core/PufferDB.kt:35-62 | with the consumer waiting in `receive`, two puts followed by two writable turns write the file exactly twice, and the file ends holding both puts |
| `Persistence.BurstPersistsLatest` | core/src/main/kotlin/cafe/adriel/pufferdb/core/PufferDB.kt:107-116 | when the consumer has a signal after a burst and the next two turns can write, one or two writes happen; the file then holds the encoding of the store as the burst left it, and reading the file gives that store back |
| `Persistence.ReloadAfterPass` | core/src/main/kotlin/cafe/adriel/pufferdb/core/PufferDB.kt:82-116 | after a committed pass, loading the file again changes nothing, and a store constructed over that file holds the saved contents with an empty slot and a newly launched consumer |
| `Persistence.FailedWriteStopsConsumer` | core/src/main/kotlin/cafe/adriel/pufferdb/core/PufferDB.kt:107-132 | a pass over a file without write permission fails with `WriteFailed`; it stops the consumer and drops the slot, and leaves the store and the file as they were |
| `Persistence.StoppedForever` | core/src/main/kotlin/cafe/adriel/pufferdb/core/PufferDB.kt:45 | once the channel is cancelled, no later operation writes the file, and the channel stays cancelled |
| `Persistence.ChangeThenThrow` | core/src/main/kotlin/cafe/adriel/pufferdb/core/PufferDB.kt:59-80 | on a cancelled channel, a mutation that signals still changes the store, and then throws `ChannelCancelled` from `offer` |
| `Persistence.MutationOutcome` | core/src/main/kotlin/cafe/adriel/pufferdb/core/PufferDB.kt:59-80 | a mutation succeeds exactly when it signals and the channel is live, and throws `ChannelCancelled` exactly when it signals and the channel is cancelled |
| `Db.PufferDB.constructor` | core/src/main/kotlin/cafe/adriel/pufferdb/core/PufferDB.kt:27-46 | a new object starts with an empty `nest`, an empty slot, a consumer that has been launched but is not yet receiving, and the given file |
| `Db.PufferDB.With` | core/src/main/kotlin/cafe/adriel/pufferdb/core/PufferDB.kt:30-49 | `with(file)` yields a fresh object in exactly the state `Open` describes, or the read error when `Open` fails |
| `Db.PufferDB.Get` | core/src/main/kotlin/cafe/adriel/pufferdb/core/PufferDB.kt:52-57 | `get` returns what `Lookup` gives on the current `nest` |
| `Db.PufferDB.Put` | core/src/main/kotlin/cafe/adriel/pufferdb/core/PufferDB.kt:59-66 | a supported object overwrites the key and is offered, leaving the file alone; the result is what `MutationOutcome` gives, so on a cancelled channel the value is stored and then `put` throws; an unsupported object fails with `UnsupportedType` and changes nothing |
| `Db.PufferDB.GetKeys` | core/src/main/kotlin/cafe/adriel/pufferdb/core/PufferDB.kt:68 | the returned set is exactly the key set of `nest` |
| `Db.PufferDB.Contains` | core/src/main/kotlin/cafe/adriel/pufferdb/core/PufferDB.kt:70 | `contains(k)` holds exactly when `k` is a key, which is exactly when `get(k)` without a default succeeds |
| `Db.PufferDB.Remove` | core/src/main/kotlin/cafe/adriel/pufferdb/core/PufferDB.kt:72-75 | `remove(k)` makes `k` absent, leaves every other key's value unchanged, and offers a signal; it throws only on a cancelled channel, after the change |
| `Db.PufferDB.RemoveAll` | core/src/main/kotlin/cafe/adriel/pufferdb/core/PufferDB.kt:77-80 | `removeAll` empties `nest` and offers a signal; it throws only on a cancelled channel, after the change |
| `Db.PufferDB.Offer` | core/src/main/kotlin/cafe/adriel/pufferdb/core/PufferDB.kt:35 | offering hands the signal to a waiting consumer, or else leaves one signal in the slot however many are offered; on a cancelled channel it throws |
| `Db.PufferDB.LoadProto` | core/src/main/kotlin/cafe/adriel/pufferdb/core/PufferDB.kt:82-105 | `loadProto` moves the object to the state `Load` describes; on a read error it fails with `ReadFailed` and changes nothing |
| `Db.PufferDB.SaveProto` | core/src/main/kotlin/cafe/adriel/pufferdb/core/PufferDB.kt:107-133 | with write permission, the file becomes the encoding of the current `nest`; without it, the pass fails with `WriteFailed` and the file stays as it was |
| `Db.PufferDB.Receive` | core/src/main/kotlin/cafe/adriel/pufferdb/core/PufferDB.kt:45 | the consumer takes the signal in the slot and empties it, or waits when the slot is empty |
| `Db.PufferDB.ConsumeTurn` | core/src/main/kotlin/cafe/adriel/pufferdb/core/PufferDB.kt:40-46 | one consumer turn moves the object to `Step(_, TurnOp)`: a newly launched consumer starts receiving; one holding a signal runs `SaveProto` and receives again, or stops when the write fails; `nest` never changes; the result is what `PassOutcome` gives |

## Left out

- The coroutine machinery is modelled only by its sequential effect. This covers `GlobalScope.launch(Dispatchers.Main)`, `consumeEach`, `Mutex.withLock`, `writeJob?.cancel()`/`isActive` and `withContext(Dispatchers.IO)`. A consumer turn is one atomic step. Mutations made from other threads while a pass is running are not represented.
- The thread-safety of `ConcurrentHashMap` and the weak consistency of iterating it are left out. The `nest` is a plain map.
- Protobuf byte encoding (`parseFrom`, `writeTo`, the builders) is generated library code. The file is modelled as a map from key to wire record, and the bytes are not modelled.
- Real file I/O is reduced to two things. The file is `Missing`, `Present` or `Unreadable`, and `Unreadable` stands for any `IOException` while reading, parsing or creating it. Write permission is a parameter of each consumer turn. An I/O error in the middle of a write, which could leave the file truncated, is not modelled.
- The exception that ends the consumer also leaves the coroutine launched in `GlobalScope`. What the platform's uncaught-exception handler then does is not modelled; on Android it terminates the process. The model keeps the store usable, with the channel cancelled.
- Exception messages and the file path in them are not modelled. `PufferException` is modelled by its reason: `KeyNotFound`, `UnsupportedType`, `ReadFailed` or `WriteFailed`. The exception `offer` throws on a cancelled channel is modelled as `ChannelCancelled`.
- Float and Double payloads are kept as bit patterns, with no floating-point semantics. String payloads are kept as `seq<char>`. Protobuf's UTF-8 encoding of strings, which cannot carry unpaired surrogates, is not modelled.
- The exception `get` raises at the call site when the stored value is not of the caller's type (an unchecked cast) is outside the code and is not modelled.
- The coroutine facade (`CoroutinePufferDB`) and the RxJava extensions are not part of this model. They delegate each call to the core operations above.
