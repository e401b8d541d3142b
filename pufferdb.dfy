/**
 * The `PufferDB` object: the `nest` map it updates in place, the single slot of
 * its conflated write channel, the coroutine that consumes that channel, and the
 * backing file it mirrors the store to. The new state of `With`, `Put`,
 * `Remove`, `RemoveAll`, `LoadProto` and `ConsumeTurn` is `Step` (or `Load`) of
 * the old one, so the lemmas of module Persistence apply to every sequence of
 * calls to these and to the read-only `Get`, `GetKeys` and `Contains`.
 * `Offer`, `Receive` and `SaveProto` stand for code private to the object (the
 * channel's `offer` and `receive`, and the private `saveProto`), called only by
 * those methods; the Persistence lemmas do not cover calling them directly.
 */
module Db {
  import opened Wrappers
  import opened Codec
  import opened Store
  import opened Persistence

  class PufferDB {
    /** `nest`: the store, the only thing reads consult. */
    var nest: Nest
    /** The conflated `writeChannel`: true while its slot holds a signal. */
    var pending: bool
    /** Where the coroutine running `consumeEach` over `writeChannel` stands. */
    var consumer: Consumer
    /** The content of `pufferFile`. */
    var file: FileModel

    ghost function State(): DbState
      reads this
    {
      DbState(nest, pending, consumer, file)
    }

    /** The field initialisers and the consumer's launch, before `init` loads the file. */
    constructor (pufferFile: FileModel)
      ensures State() == DbState(map[], false, Starting, pufferFile)
    {
      nest := map[];
      pending := false;
      consumer := Starting;
      file := pufferFile;
    }

    /** `PufferDB.with(file)`: construct, then load; a read error aborts construction. */
    static method With(pufferFile: FileModel) returns (r: Result<PufferDB, DbError>)
      ensures r.Success? <==> Open(pufferFile).Success?
      ensures r.Success? ==> fresh(r.value) && Open(pufferFile) == Success(r.value.State())
      ensures r.Failure? ==> Open(pufferFile) == Failure(r.error)
    {
      var db := new PufferDB(pufferFile);
      var loaded := db.LoadProto();
      match loaded {
        case Pass => r := Success(db);
        case Fail(e) => r := Failure(e);
      }
    }

    /** `get(key, defaultValue)`. */
    method Get(key: string, defaultValue: Option<Any>) returns (r: Result<Any, DbError>)
      ensures r == Lookup(nest, key, defaultValue)
    {
      r := Lookup(nest, key, defaultValue);
    }

    /**
     * `put(key, value)`: store and signal, or throw for an unsupported kind; on a
     * cancelled channel the value is stored and then `offer` throws.
     */
    method Put(key: string, value: Any) returns (r: Outcome<DbError>)
      modifies this
      ensures State() == Step(old(State()), PutOp(key, value))
      ensures r == MutationOutcome(old(State()), PutOp(key, value))
      ensures IsTypeSupported(value) ==> nest == old(nest)[key := value.value] && file == old(file)
      ensures !IsTypeSupported(value) ==> r == Fail(UnsupportedType(value.className)) && unchanged(this)
    {
      if IsTypeSupported(value) {
        nest := nest[key := value.value];
        r := Offer();
      } else {
        r := Fail(UnsupportedType(value.className));
      }
    }

    /** `getKeys()`: a snapshot of the key set. */
    method GetKeys() returns (keys: set<string>)
      ensures forall key :: key in keys <==> key in nest
    {
      keys := nest.Keys;
    }

    /** `contains(key)`. */
    method Contains(key: string) returns (present: bool)
      ensures present <==> key in nest
      ensures present <==> Lookup(nest, key, None).Success?
    {
      present := key in nest;
    }

    /** `remove(key)`: drop the key if present, and signal either way. */
    method Remove(key: string) returns (r: Outcome<DbError>)
      modifies this
      ensures State() == Step(old(State()), RemoveOp(key))
      ensures r == MutationOutcome(old(State()), RemoveOp(key))
      ensures key !in nest && file == old(file)
      ensures forall other :: other != key ==> Lookup(nest, other, None) == Lookup(old(nest), other, None)
    {
      nest := nest - {key};
      r := Offer();
    }

    /** `removeAll()`: clear the store and signal. */
    method RemoveAll() returns (r: Outcome<DbError>)
      modifies this
      ensures State() == Step(old(State()), RemoveAllOp)
      ensures r == MutationOutcome(old(State()), RemoveAllOp)
      ensures nest == map[] && file == old(file)
    {
      nest := map[];
      r := Offer();
    }

    /**
     * `writeChannel.offer(Unit)`: a waiting consumer takes the signal, otherwise
     * the slot keeps one signal however many are offered; a cancelled channel
     * throws. Private to the object: called only by `Put`, `Remove` and
     * `RemoveAll`.
     */
    method Offer() returns (r: Outcome<DbError>)
      modifies this`pending, this`consumer
      ensures State() == Offered(old(State()))
      ensures r.Pass? <==> !old(consumer).Stopped?
      ensures r.Fail? ==> r.error == ChannelCancelled
    {
      match consumer {
        case Waiting => consumer := Running;
        case Stopped => return Fail(ChannelCancelled);
        case _ => pending := true;
      }
      r := Pass;
    }

    /**
     * The consumer's `receive`: take the signal in the slot, or wait for one.
     * Private to the object: called only by `ConsumeTurn`.
     */
    method Receive()
      modifies this`pending, this`consumer
      ensures State() == Received(old(State()))
    {
      if pending {
        pending := false;
        consumer := Running;
      } else {
        consumer := Waiting;
      }
    }

    /**
     * `loadProto()`: read the file (creating it when missing), then replace the
     * whole store with what decoded.
     */
    method LoadProto() returns (r: Outcome<DbError>)
      modifies this
      ensures Load(old(State())).Success? ==> r.Pass? && State() == Load(old(State())).value
      ensures Load(old(State())).Failure? ==> r == Fail(ReadFailed) && unchanged(this)
    {
      var currentNest: Nest;
      match file {
        case Unreadable =>
          return Fail(ReadFailed);
        case Missing =>
          file := Present(map[]);
          currentNest := map[];
        case Present(protos) =>
          currentNest := DecodeNest(protos);
      }
      nest := map[];
      nest := nest + currentNest;
      r := Pass;
    }

    /**
     * `saveProto()` with `saveProtoFile`: snapshot and encode the store, and
     * overwrite the file; without write permission it throws and the file stays.
     * Private to the object: called only by `ConsumeTurn`, on a consumer that
     * holds a signal.
     */
    method SaveProto(canWrite: bool) returns (r: Outcome<DbError>)
      modifies this`file
      ensures canWrite ==> r.Pass? && file == Present(EncodeNest(nest))
      ensures !canWrite ==> r == Fail(WriteFailed) && file == old(file)
    {
      var newNest := EncodeNest(nest);
      if !canWrite {
        return Fail(WriteFailed);
      }
      file := Present(newNest);
      r := Pass;
    }

    /**
     * One turn of the consumer of `writeChannel`: a consumer just launched starts
     * receiving; one holding a signal runs `saveProto` and receives again, or, if
     * the write throws, ends and cancels the channel.
     */
    method ConsumeTurn(canWrite: bool) returns (r: PassResult)
      modifies this
      ensures State() == Step(old(State()), TurnOp(canWrite))
      ensures r == PassOutcome(old(State()), canWrite)
      ensures nest == old(nest)
    {
      match consumer {
        case Starting =>
          Receive();
          r := Idle;
        case Running =>
          var saved := SaveProto(canWrite);
          if saved.Pass? {
            Receive();
            r := Committed;
          } else {
            pending := false;
            consumer := Stopped;
            r := Failed(saved.error);
          }
        case _ =>
          r := Idle;
      }
    }
  }

  /**
   * A client: two puts and a `removeAll` on a store opened over a missing file.
   * The consumer starts and takes the signal, then its pass writes; a store
   * opened over the written file is empty.
   */
  method ClearedStoreReloadsEmpty()
  {
    var created := PufferDB.With(Missing);
    assert created.Success?;
    var db := created.value;
    assert db.nest == map[];
    var _ := db.Put("a", Supported(IntVal(1)));
    var _ := db.Put("b", Supported(StringVal("x")));
    var _ := db.RemoveAll();
    var keys := db.GetKeys();
    assert keys == {};
    var started := db.ConsumeTurn(true);
    assert started == Idle;
    var pass := db.ConsumeTurn(true);
    assert pass == Committed;
    var reopened := PufferDB.With(db.file);
    LoadAfterSave(map[]);
    assert reopened.Success? && reopened.value.nest == map[];
  }
}
