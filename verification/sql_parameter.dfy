/** `SQLParameter`: the closed set of values that can be bound to a statement
    parameter, its convenience constructors, literal initialisers and textual form. */
module SqlParameters {
  import opened Sqlite
  import Decimal

  datatype SqlParameter =
    | Null
    | Int64(int64Value: int64)      // 64-bit signed integer
    | Double(doubleValue: Float64)  // 64-bit IEEE floating point number
    | Text(textValue: string)       // UTF-8 string
    | Blob(blobValue: seq<byte>)    // binary large object

  /** `SQLParameter.bool(_:)`: booleans are stored as the integers 1 and 0. */
  function Bool(value: bool): (p: SqlParameter)
    ensures p.Int64?
    ensures p.int64Value == 1 <==> value
    ensures p.int64Value == 0 <==> !value
  {
    Int64(if value then 1 else 0)
  }

  /** `SQLParameter.integer(_:)`: any signed integer, converted with `Int64(value)`,
      which traps unless the value is representable in 64 bits. */
  function Integer(value: int): (p: SqlParameter)
    requires INT64_MIN <= value <= INT64_MAX
    ensures p.Int64? && p.int64Value == value
  {
    Int64(value)
  }

  // Literal initialisers: `nil`, `true`, `42`, `1.5` and `"text"` written where an
  // `SQLParameter` is expected.

  function FromNilLiteral(): (p: SqlParameter)
    ensures p.Null?
  {
    Null
  }

  function FromBooleanLiteral(value: bool): (p: SqlParameter)
    ensures p == Bool(value)
  {
    Bool(value)
  }

  function FromIntegerLiteral(value: int64): (p: SqlParameter)
    ensures p.Int64? && p.int64Value == value
  {
    Int64(value)
  }

  function FromFloatLiteral(value: Float64): (p: SqlParameter)
    ensures p.Double? && p.doubleValue == value
  {
    Double(value)
  }

  function FromStringLiteral(value: string): (p: SqlParameter)
    ensures p.Text? && p.textValue == value
  {
    Text(value)
  }

  /** `description`. Swift's rendering of a `Double` is supplied as `doubleText`. */
  function Description(p: SqlParameter, doubleText: Float64 -> string): (s: string)
    ensures p.Null? ==> s == "null"
    ensures p.Text? ==> s == p.textValue
    ensures p.Double? ==> s == doubleText(p.doubleValue)
  {
    match p
    case Null => "null"
    case Int64(n) => Decimal.IntToString(n)
    case Double(d) => doubleText(d)
    case Text(t) => t
    case Blob(b) => Decimal.IntToString(|b|) + " bytes"
  }

  /** The description of an integer parameter is its decimal rendering: reading
      it back gives the bound value. */
  lemma Int64DescriptionRoundTrip(n: int64, doubleText: Float64 -> string)
    ensures Decimal.ParseInt(Description(Int64(n), doubleText)) == n
  {
    Decimal.IntRoundTrip(n);
  }

  /** The description of a blob is "<byte count> bytes". */
  lemma BlobDescription(b: seq<byte>, doubleText: Float64 -> string)
    ensures var s := Description(Blob(b), doubleText);
      |s| > 6 && s[|s| - 6..] == " bytes" && Decimal.ParseInt(s[..|s| - 6]) == |b|
  {
    Decimal.IntRoundTrip(|b|);
    var digits := Decimal.IntToString(|b|);
    var s := Description(Blob(b), doubleText);
    assert s == digits + " bytes";
    assert s[..|s| - 6] == digits;
  }

  /** `bool(false)` is described as "0" and `bool(true)` as "1". */
  lemma BoolDescription(value: bool, doubleText: Float64 -> string)
    ensures Description(Bool(value), doubleText) == if value then "1" else "0"
  {
  }
}
