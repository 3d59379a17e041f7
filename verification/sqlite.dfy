/** The part of the native SQLite engine that the binding talks to: fixed-width
    integers, the result codes it compares against, and the engine's typed
    views of one column of the current row. */
module Sqlite {
  import opened Wrappers

  const INT32_MIN: int := -0x8000_0000
  const INT32_MAX: int := 0x7FFF_FFFF
  const INT64_MIN: int := -0x8000_0000_0000_0000
  const INT64_MAX: int := 0x7FFF_FFFF_FFFF_FFFF

  /** Swift `Int32`, the type of every SQLite result code and column index. */
  type int32 = x: int | INT32_MIN <= x <= INT32_MAX

  /** Swift `Int64`, SQLite's integer storage class. */
  type int64 = x: int | INT64_MIN <= x <= INT64_MAX

  type byte = bv8

  /** A 64-bit IEEE double, kept as its bit pattern; no arithmetic on it is modelled. */
  datatype Float64 = Float64(bits: bv64)

  // Primary result codes (sqlite3.h).
  const SQLITE_OK: int32 := 0
  const SQLITE_ERROR: int32 := 1
  const SQLITE_MISUSE: int32 := 21
  const SQLITE_RANGE: int32 := 25
  const SQLITE_ROW: int32 := 100
  const SQLITE_DONE: int32 := 101

  /** `sqlite3_errstr`: the engine's fixed English text for a result code. */
  type ErrStr = int32 -> Option<string>

  /** What the engine's column accessors answer for one column of the current row:
      `sqlite3_column_type(..) == SQLITE_NULL`, `sqlite3_column_int64`,
      `sqlite3_column_double`, `sqlite3_column_text` and `sqlite3_column_blob`.
      The engine's coercions between storage classes are its own business, so each
      view is simply given. */
  datatype ColumnValue = ColumnValue(
    isNull: bool,
    int64: int64,
    double: Float64,
    text: Option<string>,
    blob: Option<seq<byte>>)

  /** What every accessor answers when there is no such column (or no current row). */
  const NullColumn := ColumnValue(true, 0, Float64(0), None, None)

  /** The engine's view of column `index` of `row`. An engine accessor has no logic
      of its own to characterise, so its contract is its two cases spelled out. */
  function ColumnAt(row: seq<ColumnValue>, index: int): (c: ColumnValue)
    ensures 0 <= index < |row| ==> c == row[index]
    ensures !(0 <= index < |row|) ==> c.isNull && c.text.None? && c.blob.None? && c.int64 == 0
  {
    if 0 <= index < |row| then row[index] else NullColumn
  }

  /** The Swift string of a C string: `String(cString:)` on `sqlite3_column_text`,
      and `sqlite3_bind_text` handed a Swift string with length -1, both stop at the
      first NUL character. */
  function UpToNul(s: string): (r: string)
    ensures r <= s
    ensures forall i :: 0 <= i < |r| ==> r[i] != '\0'
    ensures |r| < |s| ==> s[|r|] == '\0'
  {
    if s == [] || s[0] == '\0' then [] else [s[0]] + UpToNul(s[1..])
  }

  /** `sqlite3_column_text` as the binding reads it, through `String(cString:)`. */
  function CText(c: ColumnValue): Option<string>
  {
    if c.text.Some? then Some(UpToNul(c.text.value)) else None
  }
}
