/**
 * The persistence side of PufferDB, abstracted sequentially. The state is the
 * store, the single slot of the conflated write channel, the consumer that
 * drains the channel, and the backing file. A mutation offers a signal: a
 * consumer waiting in `receive` takes it at once, otherwise it fills the slot.
 * One consumer turn runs `saveProto` on the signal it holds (snapshot the store,
 * encode it, overwrite the file) and then receives again. A failed write
 * escapes the consumer and cancels the channel for good.
 */
module Persistence {
  import opened Wrappers
  import opened Codec
  import opened Store

  /**
   * The backing file. `Unreadable` is a file whose reading, parsing or creation
   * raises an I/O error.
   */
  datatype FileModel = Missing | Present(protos: ProtoNest) | Unreadable

  /**
   * The consumer of the write channel: launched but not yet receiving, suspended
   * in `receive`, holding a signal whose `saveProto` has yet to run, or ended by
   * a failed write (the channel is then cancelled).
   */
  datatype Consumer = Starting | Waiting | Running | Stopped

  /** The store, the channel's slot, the consumer, and the file. */
  datatype DbState = DbState(nest: Nest, pending: bool, consumer: Consumer, file: FileModel)

  /** The operations that change the state. */
  datatype Op =
    | PutOp(key: string, value: Any)
    | RemoveOp(key: string)
    | RemoveAllOp
    | TurnOp(canWrite: bool)   // one consumer turn; `canWrite` is the file's write permission

  /** What a consumer turn did. */
  datatype PassResult = Idle | Committed | Failed(error: DbError)

  /** The store contents `loadProto` reads: empty for a missing file. */
  function ReadNest(file: FileModel): Result<Nest, DbError> {
    match file
    case Missing => Success(map[])
    case Present(protos) => Success(DecodeNest(protos))
    case Unreadable => Failure(ReadFailed)
  }

  /**
   * `loadProto`: the loaded map replaces the whole store, and a missing file is
   * created empty. On a read error the exception is thrown before the store is
   * touched.
   */
  function Load(s: DbState): (r: Result<DbState, DbError>)
    ensures r.Success? <==> !s.file.Unreadable?
    ensures r.Failure? ==> r.error == ReadFailed
    ensures r.Success? ==> r.value.file.Present? && r.value.nest == DecodeNest(r.value.file.protos)
    ensures r.Success? && s.file.Present? ==> r.value.file == s.file
    ensures r.Success? && s.file.Missing? ==> r.value.file == Present(map[])
    ensures r.Success? ==> r.value.pending == s.pending && r.value.consumer == s.consumer
    ensures r.Success? ==> forall key :: key in r.value.nest ==> s.file.Present? && key in s.file.protos
  {
    match ReadNest(s.file)
    case Failure(e) => Failure(e)
    case Success(loaded) =>
      var file := if s.file.Missing? then Present(map[]) else s.file;
      Success(s.(nest := loaded, file := file))
  }

  /** Construction: an empty store, an empty slot, a consumer just launched, then a load. */
  function Open(file: FileModel): (r: Result<DbState, DbError>)
    ensures file.Missing? ==> r == Success(DbState(map[], false, Starting, Present(map[])))
    ensures file.Present? ==> r == Success(DbState(DecodeNest(file.protos), false, Starting, file))
    ensures file.Unreadable? ==> r == Failure(ReadFailed)
  {
    Load(DbState(map[], false, Starting, file))
  }

  /** Whether an operation changes the store and offers to the write channel. */
  predicate Signals(op: Op) {
    match op
    case PutOp(_, value) => IsTypeSupported(value)
    case RemoveOp(_) => true
    case RemoveAllOp => true
    case TurnOp(_) => false
  }

  /** The store after a mutation that signals. */
  function Apply(nest: Nest, op: Op): Nest
    requires Signals(op)
  {
    match op
    case PutOp(key, value) => nest[key := value.value]
    case RemoveOp(key) => nest - {key}
    case RemoveAllOp => map[]
  }

  /**
   * `writeChannel.offer(Unit)`: a waiting consumer takes the signal; a busy or
   * not yet receiving one finds it in the slot, which holds one signal at most;
   * a cancelled channel takes nothing.
   */
  function Offered(s: DbState): DbState {
    match s.consumer
    case Waiting => s.(consumer := Running)
    case Stopped => s
    case _ => s.(pending := true)
  }

  /** The consumer's `receive`: take the signal in the slot, or wait for one. */
  function Received(s: DbState): DbState {
    if s.pending then s.(pending := false, consumer := Running) else s.(consumer := Waiting)
  }

  /** Whether a consumer turn taken in state `s` writes the file. */
  predicate Commits(s: DbState, op: Op) {
    op.TurnOp? && s.consumer.Running? && op.canWrite
  }

  /**
   * Whether the consumer has a signal it will act on: it holds one, or it has
   * yet to start and one is in the slot.
   */
  predicate Signalled(s: DbState) {
    s.consumer.Running? || (s.consumer.Starting? && s.pending)
  }

  /** One operation. */
  function Step(s: DbState, op: Op): DbState {
    match op
    case TurnOp(canWrite) =>
      (match s.consumer
       case Starting => Received(s)
       case Running =>
         if canWrite then Received(s.(file := Present(EncodeNest(s.nest))))
         else s.(pending := false, consumer := Stopped)
       case _ => s)
    case _ =>
      if Signals(op) then Offered(s.(nest := Apply(s.nest, op))) else s
  }

  /** What a mutation returns: the store changes before `offer` can throw. */
  function MutationOutcome(s: DbState, op: Op): (r: Outcome<DbError>)
    requires !op.TurnOp?
    ensures r.Pass? <==> Signals(op) && !s.consumer.Stopped?
    ensures r == Fail(ChannelCancelled) <==> Signals(op) && s.consumer.Stopped?
  {
    if op.PutOp? && !IsTypeSupported(op.value) then Fail(UnsupportedType(op.value.className))
    else if s.consumer.Stopped? then Fail(ChannelCancelled)
    else Pass
  }

  /** What a consumer turn reports. */
  function PassOutcome(s: DbState, canWrite: bool): (r: PassResult)
    ensures r == Committed <==> Commits(s, TurnOp(canWrite))
    ensures r.Failed? <==> s.consumer.Running? && !canWrite
    ensures r.Failed? ==> Step(s, TurnOp(canWrite)).consumer.Stopped?
  {
    if !s.consumer.Running? then Idle else if canWrite then Committed else Failed(WriteFailed)
  }

  /** A trace of operations, applied left to right. */
  function Run(s: DbState, ops: seq<Op>): DbState
    decreases |ops|
  {
    if ops == [] then s else Run(Step(s, ops[0]), ops[1..])
  }

  /** How many turns of a trace wrote the file. */
  function Writes(s: DbState, ops: seq<Op>): nat
    decreases |ops|
  {
    if ops == [] then 0
    else (if Commits(s, ops[0]) then 1 else 0) + Writes(Step(s, ops[0]), ops[1..])
  }

  /** The writes the consumer still owes: the signal it holds, and the one in the slot. */
  function Owed(s: DbState): nat {
    (if s.consumer.Running? then 1 else 0)
      + (if s.pending && (s.consumer.Running? || s.consumer.Starting?) then 1 else 0)
  }

  predicate AllMutations(ops: seq<Op>) {
    forall i :: 0 <= i < |ops| ==> !ops[i].TurnOp?
  }

  predicate AllTurns(ops: seq<Op>) {
    forall i :: 0 <= i < |ops| ==> ops[i].TurnOp?
  }

  predicate AllWritable(ops: seq<Op>) {
    forall i :: 0 <= i < |ops| ==> ops[i].TurnOp? && ops[i].canWrite
  }

  /**
   * `put` of a supported value: `get` returns it, other keys keep theirs, and,
   * unless the channel is cancelled, the consumer has a signal to act on.
   */
  lemma PutThenGet(s: DbState, key: string, value: Any, defaultValue: Option<Any>)
    requires IsTypeSupported(value)
    ensures var t := Step(s, PutOp(key, value));
      && Lookup(t.nest, key, defaultValue) == Success(value)
      && t.nest.Keys == s.nest.Keys + {key}
      && (forall other :: other != key ==> Lookup(t.nest, other, defaultValue) == Lookup(s.nest, other, defaultValue))
      && t.file == s.file
      && (!s.consumer.Stopped? ==> Signalled(t) && MutationOutcome(s, PutOp(key, value)) == Pass)
  {
  }

  /** `put` of any other object changes nothing and throws `UnsupportedType`. */
  lemma PutUnsupported(s: DbState, key: string, value: Any)
    requires !IsTypeSupported(value)
    ensures Step(s, PutOp(key, value)) == s
    ensures MutationOutcome(s, PutOp(key, value)) == Fail(UnsupportedType(value.className))
  {
  }

  /** `remove` makes the key absent, keeps every other entry, and signals. */
  lemma RemoveKeepsOthers(s: DbState, key: string)
    ensures var t := Step(s, RemoveOp(key));
      && t.nest.Keys == s.nest.Keys - {key}
      && (forall other :: other in t.nest ==> t.nest[other] == s.nest[other])
      && (key !in s.nest ==> t.nest == s.nest)
      && t.file == s.file
      && (!s.consumer.Stopped? ==> Signalled(t))
  {
  }

  /** `removeAll` leaves no key, and signals. */
  lemma RemoveAllEmpties(s: DbState)
    ensures var t := Step(s, RemoveAllOp);
      t.nest.Keys == {} && t.file == s.file && (!s.consumer.Stopped? ==> Signalled(t))
  {
  }

  /**
   * Once the channel is cancelled, a mutation still changes the store, and then
   * throws from `offer`.
   */
  lemma ChangeThenThrow(s: DbState, op: Op)
    requires s.consumer.Stopped? && Signals(op)
    ensures Step(s, op) == s.(nest := Apply(s.nest, op))
    ensures MutationOutcome(s, op) == Fail(ChannelCancelled)
  {
  }

  /** Splitting a trace: running `a + b` is running `a` then `b`. */
  lemma {:induction false} RunAppend(s: DbState, a: seq<Op>, b: seq<Op>)
    ensures Run(s, a + b) == Run(Run(s, a), b)
    ensures Writes(s, a + b) == Writes(s, a) + Writes(Run(s, a), b)
    decreases |a|
  {
    if a == [] {
      assert a + b == b;
    } else {
      assert (a + b)[0] == a[0];
      assert (a + b)[1..] == a[1..] + b;
      RunAppend(Step(s, a[0]), a[1..], b);
    }
  }

  /**
   * Mutations never touch the file nor stop the consumer; afterwards the
   * consumer has a signal exactly when it had one before, or the channel is
   * live and at least one mutation signalled, however many did.
   */
  lemma {:induction false} MutationsOnlySignal(s: DbState, muts: seq<Op>)
    requires AllMutations(muts)
    ensures Run(s, muts).file == s.file
    ensures Writes(s, muts) == 0
    ensures Run(s, muts).consumer.Stopped? <==> s.consumer.Stopped?
    ensures Signalled(Run(s, muts)) <==>
      Signalled(s) || (!s.consumer.Stopped? && exists i :: 0 <= i < |muts| && Signals(muts[i]))
    decreases |muts|
  {
    if muts != [] {
      var t := Step(s, muts[0]);
      assert Signalled(t) <==> Signalled(s) || (!s.consumer.Stopped? && Signals(muts[0]));
      MutationsOnlySignal(t, muts[1..]);
      if exists i :: 0 <= i < |muts| && Signals(muts[i]) {
        var i :| 0 <= i < |muts| && Signals(muts[i]);
        if i > 0 {
          assert muts[1..][i - 1] == muts[i];
        }
      }
      if exists j :: 0 <= j < |muts[1..]| && Signals(muts[1..][j]) {
        var j :| 0 <= j < |muts[1..]| && Signals(muts[1..][j]);
        assert muts[j + 1] == muts[1..][j];
      }
    }
  }

  /** With no signal to act on, consumer turns write nothing and change no data. */
  lemma {:induction false} QuietTurns(s: DbState, turns: seq<Op>)
    requires !Signalled(s) && AllTurns(turns)
    ensures Writes(s, turns) == 0
    ensures Run(s, turns).nest == s.nest && Run(s, turns).file == s.file
    ensures !Signalled(Run(s, turns))
    ensures s.consumer.Waiting? ==> Run(s, turns) == s
    decreases |turns|
  {
    if turns != [] {
      QuietTurns(Step(s, turns[0]), turns[1..]);
    }
  }

  /** Consumer turns write at most what the consumer owes, and never change the store. */
  lemma {:induction false} TurnsWriteAtMostOwed(s: DbState, turns: seq<Op>)
    requires AllTurns(turns)
    ensures Writes(s, turns) <= Owed(s)
    ensures Run(s, turns).nest == s.nest
    decreases |turns|
  {
    if turns != [] {
      var t := Step(s, turns[0]);
      assert (if Commits(s, turns[0]) then 1 else 0) + Owed(t) <= Owed(s);
      TurnsWriteAtMostOwed(t, turns[1..]);
    }
  }

  /**
   * Coalescing: through the conflated channel, a burst of mutations of any
   * length followed by any number of turns writes the file at most twice (once
   * for the signal the consumer took, once for the one left in the slot), and
   * the turns leave the store as the burst left it.
   */
  lemma BurstWritesAtMostTwice(s: DbState, muts: seq<Op>, turns: seq<Op>)
    requires AllMutations(muts) && AllTurns(turns)
    ensures Writes(s, muts + turns) <= 2
    ensures Run(s, muts + turns).nest == Run(s, muts).nest
  {
    RunAppend(s, muts, turns);
    MutationsOnlySignal(s, muts);
    TurnsWriteAtMostOwed(Run(s, muts), turns);
  }

  /**
   * Two writable turns drain a consumer that has a signal: it writes once or
   * twice, the file ends holding the store's encoding, and the consumer waits
   * with the slot empty.
   */
  lemma DrainTurns(s: DbState, turns: seq<Op>)
    requires Signalled(s) && AllWritable(turns) && |turns| >= 2
    ensures 1 <= Writes(s, turns) <= 2
    ensures Run(s, turns).file == Present(EncodeNest(s.nest))
    ensures Run(s, turns).nest == s.nest
    ensures Run(s, turns).consumer == Waiting && !Run(s, turns).pending
  {
    var t1 := Step(s, turns[0]);
    var t2 := Step(t1, turns[1]);
    assert turns[1..][0] == turns[1] && turns[1..][1..] == turns[2..];
    assert Run(s, turns) == Run(t2, turns[2..]);
    assert Writes(s, turns) == (if Commits(s, turns[0]) then 1 else 0)
      + (if Commits(t1, turns[1]) then 1 else 0) + Writes(t2, turns[2..]);
    assert !Signalled(t2);
    QuietTurns(t2, turns[2..]);
  }

  /**
   * Why the bound is two and not one: when the consumer is waiting, the first of
   * two puts hands it the signal and the second fills the slot, so two writable
   * turns both write, each time the store as the burst left it.
   */
  lemma WaitingConsumerWritesTwice(s: DbState, k1: string, v1: Value, k2: string, v2: Value)
    requires s.consumer.Waiting?
    ensures var ops := [PutOp(k1, Supported(v1)), PutOp(k2, Supported(v2)), TurnOp(true), TurnOp(true)];
      && Writes(s, ops) == 2
      && Run(s, ops).file == Present(EncodeNest(s.nest[k1 := v1][k2 := v2]))
  {
    var ops := [PutOp(k1, Supported(v1)), PutOp(k2, Supported(v2)), TurnOp(true), TurnOp(true)];
    var t1 := Step(s, ops[0]);
    var t2 := Step(t1, ops[1]);
    var t3 := Step(t2, ops[2]);
    var t4 := Step(t3, ops[3]);
    assert t2.consumer.Running? && t2.pending && t2.nest == s.nest[k1 := v1][k2 := v2];
    assert ops[1..] == [ops[1], ops[2], ops[3]] && ops[1..][1..] == [ops[2], ops[3]];
    assert ops[1..][1..][1..] == [ops[3]] && ops[1..][1..][1..][1..] == [];
    assert Run(t3, [ops[3]]) == t4 && Writes(t3, [ops[3]]) == 1;
    assert Run(t2, [ops[2], ops[3]]) == t4 && Writes(t2, [ops[2], ops[3]]) == 2;
  }

  /**
   * When the consumer has a signal after a burst (by MutationsOnlySignal: it had
   * one before, or the channel is live and some mutation signalled) and the next
   * turns can write, the file ends holding the store as the burst left it, after
   * one or two writes, so reading the file gives that store back.
   */
  lemma BurstPersistsLatest(s: DbState, muts: seq<Op>, turns: seq<Op>)
    requires AllMutations(muts) && AllWritable(turns) && |turns| >= 2
    requires Signalled(Run(s, muts))
    ensures 1 <= Writes(s, muts + turns) <= 2
    ensures Run(s, muts + turns).file == Present(EncodeNest(Run(s, muts).nest))
    ensures ReadNest(Run(s, muts + turns).file) == Success(Run(s, muts).nest)
  {
    RunAppend(s, muts, turns);
    MutationsOnlySignal(s, muts);
    DrainTurns(Run(s, muts), turns);
    LoadAfterSave(Run(s, muts).nest);
  }

  /** After a turn has written the file, loading it again changes nothing. */
  lemma ReloadAfterPass(s: DbState)
    requires Commits(s, TurnOp(true))
    ensures Load(Step(s, TurnOp(true))) == Success(Step(s, TurnOp(true)))
    ensures Open(Step(s, TurnOp(true)).file)
      == Success(DbState(s.nest, false, Starting, Step(s, TurnOp(true)).file))
  {
    LoadAfterSave(s.nest);
  }

  /**
   * A failed write ends the consumer and cancels the channel (its slot is
   * dropped); the store and the file stay as they were.
   */
  lemma FailedWriteStopsConsumer(s: DbState)
    requires s.consumer.Running?
    ensures var t := Step(s, TurnOp(false));
      t.nest == s.nest && t.file == s.file && !t.pending && t.consumer.Stopped?
    ensures PassOutcome(s, false) == Failed(WriteFailed)
  {
  }

  /**
   * After the channel is cancelled nothing is ever written again, whatever
   * operations follow, and the channel stays cancelled.
   */
  lemma {:induction false} StoppedForever(s: DbState, ops: seq<Op>)
    requires s.consumer.Stopped?
    ensures Run(s, ops).consumer.Stopped?
    ensures Run(s, ops).file == s.file
    ensures Writes(s, ops) == 0
    decreases |ops|
  {
    if ops != [] {
      StoppedForever(Step(s, ops[0]), ops[1..]);
    }
  }
}
