/**
 * The value codec of PufferDB: the six kinds of value the store accepts,
 * the tagged wire record they are written as, and the conversions between them.
 */
module Codec {
  import opened Wrappers

  /** Kotlin `Int`: a 32-bit signed integer. */
  newtype Int32 = x: int | -0x8000_0000 <= x < 0x8000_0000

  /** Kotlin `Long`: a 64-bit signed integer. */
  newtype Int64 = x: int | -0x8000_0000_0000_0000 <= x < 0x8000_0000_0000_0000

  /** Kotlin `Float`, kept as its IEEE-754 bit pattern: nothing here computes with it. */
  datatype Float32 = Float32(bits: bv32)

  /** Kotlin `Double`, kept as its IEEE-754 bit pattern. */
  datatype Float64 = Float64(bits: bv64)

  /** A value of one of the six kinds the store holds. */
  datatype Value =
    | DoubleVal(d: Float64)
    | FloatVal(f: Float32)
    | IntVal(i: Int32)
    | LongVal(l: Int64)
    | BoolVal(b: bool)
    | StringVal(s: string)

  /**
   * Any object a caller can hand to `put`, or as a default to `get`:
   * either one of the six supported kinds, or an object of some other class.
   */
  datatype Any = Supported(value: Value) | Unsupported(className: string)

  /**
   * The wire record `ValueProto`: a oneof over six fields. `OtherCase` is a
   * record whose type case is none of the six (not set, or a field number this
   * schema does not know).
   */
  datatype ValueProto =
    | DoubleValue(doubleValue: Float64)
    | FloatValue(floatValue: Float32)
    | IntValue(intValue: Int32)
    | LongValue(longValue: Int64)
    | BoolValue(boolValue: bool)
    | StringValue(stringValue: string)
    | OtherCase(fieldNumber: nat)

  /**
   * `isTypeSupported`: the object is a Double, Float, Int, Long, Boolean or
   * String, which is exactly when it is a value the file can hold and give back.
   */
  predicate IsTypeSupported(value: Any)
    ensures IsTypeSupported(value) <==>
      exists v: Value :: value == Supported(v) && GetValue(GetProtoValue(v)) == Some(v)
  {
    match value
    case Supported(_) => true
    case Unsupported(_) => false
  }

  /** `getValue`: decoding a wire record; a record of an unrecognised type case is absent. */
  function GetValue(proto: ValueProto): (r: Option<Value>)
    ensures r.None? <==> proto.OtherCase?
  {
    match proto
    case DoubleValue(d) => Some(DoubleVal(d))
    case FloatValue(f) => Some(FloatVal(f))
    case IntValue(i) => Some(IntVal(i))
    case LongValue(l) => Some(LongVal(l))
    case BoolValue(b) => Some(BoolVal(b))
    case StringValue(s) => Some(StringVal(s))
    case OtherCase(_) => None
  }

  /** `getProtoValue`: encoding a value sets the field of its own kind; it never fails. */
  function GetProtoValue(value: Value): (proto: ValueProto)
    ensures !proto.OtherCase?
  {
    match value
    case DoubleVal(d) => DoubleValue(d)
    case FloatVal(f) => FloatValue(f)
    case IntVal(i) => IntValue(i)
    case LongVal(l) => LongValue(l)
    case BoolVal(b) => BoolValue(b)
    case StringVal(s) => StringValue(s)
  }

  /** Decoding undoes encoding, for every value of the six kinds. */
  lemma DecodeEncode(value: Value)
    ensures GetValue(GetProtoValue(value)) == Some(value)
  {
  }

  /** A record decodes to a value exactly when it is that value's encoding. */
  lemma DecodesIffEncodes(proto: ValueProto, value: Value)
    ensures GetValue(proto) == Some(value) <==> GetProtoValue(value) == proto
  {
  }

  /** Encoding is injective: two different values never share a wire record. */
  lemma EncodeInjective(v1: Value, v2: Value)
    ensures GetProtoValue(v1) == GetProtoValue(v2) ==> v1 == v2
  {
    DecodeEncode(v1);
    DecodeEncode(v2);
  }
}
