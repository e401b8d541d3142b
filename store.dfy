/**
 * The in-memory `nest` of PufferDB as a map from key to value, with the pure
 * functions the store's operations are specified by: the lookup behind `get`,
 * the filtering decode behind loading, and the encoded snapshot behind saving.
 */
module Store {
  import opened Wrappers
  import opened Codec

  /** The store's contents: every value is one of the six kinds. */
  type Nest = map<string, Value>

  /** The content of the backing file: key to wire record. */
  type ProtoNest = map<string, ValueProto>

  /**
   * What the store's operations throw: a `PufferException`, distinguished by
   * the reason it is thrown for, or the cancellation exception `offer` throws
   * once the write channel has been cancelled.
   */
  datatype DbError =
    | KeyNotFound(key: string)           // `get` of an absent key without a default
    | UnsupportedType(className: string) // `put` of an object outside the six kinds
    | ReadFailed                         // an I/O error while loading the file
    | WriteFailed                        // the file is not writable when a pass saves
    | ChannelCancelled                   // an offer to the cancelled write channel

  /**
   * `get(key, defaultValue)`: the lookup throws when the key is absent, and the
   * handler then returns the default, or rethrows when there is none.
   */
  function Lookup(nest: Nest, key: string, defaultValue: Option<Any>): (r: Result<Any, DbError>)
    ensures key in nest ==> r == Success(Supported(nest[key]))
    ensures key !in nest && defaultValue.Some? ==> r == Success(defaultValue.value)
    ensures key !in nest && defaultValue.None? ==> r == Failure(KeyNotFound(key))
    ensures r.Failure? ==> defaultValue.None?
  {
    var attempt: Result<Any, DbError> :=
      if key in nest then Success(Supported(nest[key])) else Failure(KeyNotFound(key));
    match attempt
    case Success(_) => attempt
    case Failure(e) => if defaultValue.Some? then Success(defaultValue.value) else Failure(e)
  }

  /**
   * The `mapNotNull`/`toMap` filter of `loadProto`: keeps exactly the entries
   * whose record decodes, each mapped to the value its record encodes.
   */
  function DecodeNest(protos: ProtoNest): (nest: Nest)
    ensures forall key :: key in nest <==> key in protos && !protos[key].OtherCase?
    ensures forall key :: key in nest ==> GetProtoValue(nest[key]) == protos[key]
  {
    map key | key in protos && GetValue(protos[key]).Some? :: GetValue(protos[key]).value
  }

  /** The `mapValues` snapshot of `saveProto`: same keys, every value encoded. */
  function EncodeNest(nest: Nest): (protos: ProtoNest)
    ensures protos.Keys == nest.Keys
    ensures forall key :: key in protos ==> GetValue(protos[key]) == Some(nest[key])
  {
    map key | key in nest :: GetProtoValue(nest[key])
  }

  /** Loading a saved snapshot gives back exactly the store that was saved. */
  lemma LoadAfterSave(nest: Nest)
    ensures DecodeNest(EncodeNest(nest)) == nest
  {
    var loaded := DecodeNest(EncodeNest(nest));
    assert loaded.Keys == nest.Keys;
    forall key | key in nest
      ensures loaded[key] == nest[key]
    {
      DecodeEncode(nest[key]);
    }
  }

  /**
   * Saving what was loaded gives back the file without its unrecognised
   * records: only those are lost by a load/save cycle.
   */
  lemma SaveAfterLoad(protos: ProtoNest)
    ensures EncodeNest(DecodeNest(protos)) == map key | key in protos && !protos[key].OtherCase? :: protos[key]
  {
  }
}
