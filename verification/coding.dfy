/** What both decoders share: Swift's coding keys, `DecodingError` with its context,
    the integer types a column can be narrowed into, and the shapes of the record
    types a caller decodes (each `Decodable` conformance's `init(from:)`). */
module Coding {
  import opened Sqlite

  /** A coding key: the field name it stands for, and how Swift's string
      interpolation prints the key itself (`"\(key)"`). */
  datatype CodingKey = CodingKey(stringValue: string, description: string)

  datatype Context = Context(codingPath: seq<CodingKey>, debugDescription: string)

  /** The types named by the errors the decoders throw. */
  datatype TypeTag = PreparedStatementType | ColumnType | StringType | DataType

  datatype DecodingError =
    | TypeMismatch(typeTag: TypeTag, context: Context)
    | ValueNotFound(typeTag: TypeTag, context: Context)
    | KeyNotFound(key: CodingKey, context: Context)
    | DataCorrupted(context: Context)

  /** The fixed-width integer targets. `Int` and `UInt` are 64 bits wide. */
  datatype IntType = Int | Int8 | Int16 | Int32 | Int64 | UInt | UInt8 | UInt16 | UInt32 | UInt64

  function MinOf(t: IntType): int
  {
    match t
    case Int8 => -0x80
    case Int16 => -0x8000
    case Int32 => -0x8000_0000
    case Int | Int64 => -0x8000_0000_0000_0000
    case UInt | UInt8 | UInt16 | UInt32 | UInt64 => 0
  }

  function MaxOf(t: IntType): int
  {
    match t
    case Int8 => 0x7F
    case Int16 => 0x7FFF
    case Int32 => 0x7FFF_FFFF
    case Int | Int64 => 0x7FFF_FFFF_FFFF_FFFF
    case UInt8 => 0xFF
    case UInt16 => 0xFFFF
    case UInt32 => 0xFFFF_FFFF
    case UInt | UInt64 => 0xFFFF_FFFF_FFFF_FFFF
  }

  /** The three parts of a message `a + b + c` can be read back off it. */
  lemma ThreeParts(a: string, b: string, c: string)
    ensures var m := a + b + c;
      && |m| == |a| + |b| + |c|
      && m[..|a|] == a && m[|a|..|m| - |c|] == b && m[|m| - |c|..] == c
  {
    var m := a + b + c;
    assert m[..|a|] == a;
    assert m[|a|..|m| - |c|] == b;
    assert m[|m| - |c|..] == c;
  }

  /** How `\(type)` prints the metatype. */
  function TypeName(t: IntType): string
  {
    match t
    case Int => "Int"
    case Int8 => "Int8"
    case Int16 => "Int16"
    case Int32 => "Int32"
    case Int64 => "Int64"
    case UInt => "UInt"
    case UInt8 => "UInt8"
    case UInt16 => "UInt16"
    case UInt32 => "UInt32"
    case UInt64 => "UInt64"
  }

  /** `T(exactly: value)` succeeds exactly for values in `T`'s range. */
  predicate Fits(t: IntType, value: int)
  {
    MinOf(t) <= value <= MaxOf(t)
  }

  /** The shape of a `Decodable` type, standing for its `init(from:)`:
      - `Bool`, `String` and the integers ask for a single-value container and
        decode themselves from it;
      - `Data` and arrays ask for an unkeyed container;
      - `Optional<W>` asks for a single-value container, answers `nil` when it
        holds null and decodes `W` from it otherwise;
      - a hand-written wrapper asks for a single-value container and decodes its
        inner type from it;
      - a record with a synthesized conformance asks for a keyed container and
        decodes its fields in order, optional fields with `decodeIfPresent`. */
  datatype Shape =
    | BoolShape
    | StringShape
    | IntShape(intType: IntType)
    | DataShape
    | ArrayShape
    | OptionalShape(wrapped: Shape)
    | SingleShape(inner: Shape)
    | RecordShape(fields: seq<Field>)

  datatype Field = Field(key: CodingKey, shape: Shape)

  /** A decoded value. */
  datatype Value =
    | BoolValue(boolean: bool)
    | StringValue(text: string)
    | IntValue(integer: int)
    | DataValue(bytes: seq<byte>)
    | NoValue
    | SomeValue(wrapped: Value)
    | WrappedValue(inner: Value)
    | RecordValue(values: seq<Value>)

  /** The types whose keyed and single-value decoding has its own entry point. */
  predicate IsPrimitive(s: Shape)
  {
    s.BoolShape? || s.StringShape? || s.IntShape?
  }

  /** `v` is a value of the type `s` describes; no array is ever produced. */
  predicate Conforms(v: Value, s: Shape)
    decreases s
  {
    match s
    case BoolShape => v.BoolValue?
    case StringShape => v.StringValue?
    case IntShape(t) => v.IntValue? && Fits(t, v.integer)
    case DataShape => v.DataValue?
    case ArrayShape => false
    case OptionalShape(w) => v.NoValue? || (v.SomeValue? && Conforms(v.wrapped, w))
    case SingleShape(inner) => v.WrappedValue? && Conforms(v.inner, inner)
    case RecordShape(fields) =>
      v.RecordValue? && |v.values| == |fields| &&
      forall i :: 0 <= i < |fields| ==> Conforms(v.values[i], fields[i].shape)
  }

  /** `context.codingPath` begins with `prefix`. */
  predicate PathExtends(e: DecodingError, prefix: seq<CodingKey>)
  {
    prefix <= e.context.codingPath
  }
}
