/** `RowDecoder`: decodes a record from one row. `_RowDecoder` serves the record's
    keyed container; every field that is not read directly gets its own
    `_ColumnDecoder`, whose coding path is just that field's key. */
module RowDecoders {
  import opened Wrappers
  import opened Sqlite
  import opened Coding

  /** `PreparedStatement.Column`: the engine's views of one column of the row, and
      how the column prints itself. */
  datatype Column = Column(value: ColumnValue, description: string)

  /** `PreparedStatement.Row`: the statement's `columnIndexByName` and the row's columns. */
  datatype Row = Row(columnIndexByName: map<string, int32>, columns: seq<Column>)

  /** Every index in the name map designates a column of the row. */
  predicate WellFormed(row: Row)
  {
    forall name :: name in row.columnIndexByName ==> 0 <= row.columnIndexByName[name] < |row.columns|
  }

  /** Which decoder a type's `init(from:)` receives. */
  datatype Level = TopLevel | ColumnLevel(key: CodingKey)

  const KEY_NOT_FOUND := "Column index not found for key: "

  const NOT_FIT_OPEN := "Parsed SQL integer <"

  /** The message of an integer that does not fit: the column as it prints itself,
      between angle brackets, then the target type. */
  function NumberNotFit(column: Column, t: IntType): (m: string)
    ensures var tail := "> does not fit in " + TypeName(t) + ".";
      && |m| == |NOT_FIT_OPEN| + |column.description| + |tail|
      && m[..|NOT_FIT_OPEN|] == NOT_FIT_OPEN
      && m[|NOT_FIT_OPEN|..|m| - |tail|] == column.description
      && m[|m| - |tail|..] == tail
  {
    var tail := "> does not fit in " + TypeName(t) + ".";
    ThreeParts(NOT_FIT_OPEN, column.description, tail);
    NOT_FIT_OPEN + column.description + tail
  }

  /** `codingPath`: empty for the row decoder, `[key]` for a column decoder. */
  function CodingPath(level: Level): (path: seq<CodingKey>)
    ensures level.TopLevel? <==> path == []
    ensures level.ColumnLevel? ==> path == [level.key]
  {
    match level
    case TopLevel => []
    case ColumnLevel(key) => [key]
  }

  /** `container(keyedBy:)`: only the row decoder has a keyed container. */
  function KeyedContainer(level: Level): (r: Result<(), DecodingError>)
    ensures r.Success? <==> level.TopLevel?
    ensures r.Failure? ==> r.error == TypeMismatch(ColumnType, Context(CodingPath(level), ""))
  {
    match level
    case TopLevel => Success(())
    case ColumnLevel(key) => Failure(TypeMismatch(ColumnType, Context([key], "")))
  }

  /** `singleValueContainer()`: a column decoder is its own single-value container. */
  function SingleValueContainer(level: Level): (r: Result<CodingKey, DecodingError>)
    ensures r.Success? <==> level.ColumnLevel?
    ensures r.Success? ==> r.value == level.key
    ensures r.Failure? ==> r.error == TypeMismatch(PreparedStatementType, Context([], ""))
  {
    match level
    case TopLevel => Failure(TypeMismatch(PreparedStatementType, Context([], "")))
    case ColumnLevel(key) => Success(key)
  }

  /** `unkeyedContainer()`: neither decoder has one. */
  function UnkeyedContainer(level: Level): (e: DecodingError)
    ensures e.TypeMismatch? && e.context == Context(CodingPath(level), "")
    ensures e.typeTag == if level.TopLevel? then PreparedStatementType else ColumnType
  {
    match level
    case TopLevel => TypeMismatch(PreparedStatementType, Context([], ""))
    case ColumnLevel(key) => TypeMismatch(ColumnType, Context([key], ""))
  }

  /** `KeyedContainer.contains(_:)`. */
  function Contains(row: Row, key: CodingKey): (b: bool)
    ensures b <==> key.stringValue in row.columnIndexByName
  {
    key.stringValue in row.columnIndexByName.Keys
  }

  /** `column(forKey:)`: the column the key names, or `keyNotFound` at path `[key]`. */
  function ColumnFor(row: Row, key: CodingKey): (r: Result<Column, DecodingError>)
    requires WellFormed(row)
    ensures r.Success? <==> key.stringValue in row.columnIndexByName
    ensures r.Success? ==> r.value == row.columns[row.columnIndexByName[key.stringValue]]
    ensures r.Failure? ==> r.error == KeyNotFound(key, Context([key], KEY_NOT_FOUND + key.description))
  {
    if key.stringValue in row.columnIndexByName then Success(row.columns[row.columnIndexByName[key.stringValue]])
    else Failure(KeyNotFound(key, Context([key], KEY_NOT_FOUND + key.description)))
  }

  /** `null(for:)`: an unknown key reads as null. */
  function Null(row: Row, key: CodingKey): (isNull: bool)
    requires WellFormed(row)
    ensures isNull <==> key.stringValue !in row.columnIndexByName || ColumnFor(row, key).value.value.isNull
  {
    match ColumnFor(row, key)
    case Success(column) => column.value.isNull
    case Failure(_) => true
  }

  /** `integer(_:forKey:)`: the column's 64-bit value, narrowed exactly into `t`. */
  function Integer(row: Row, t: IntType, key: CodingKey): (r: Result<int, DecodingError>)
    requires WellFormed(row)
    ensures r.Success? <==> ColumnFor(row, key).Success? && Fits(t, ColumnFor(row, key).value.value.int64)
    ensures r.Success? ==> r.value == ColumnFor(row, key).value.value.int64
    ensures ColumnFor(row, key).Failure? ==> r == Failure(ColumnFor(row, key).error)
    ensures ColumnFor(row, key).Success? && r.Failure? ==>
      r.error == DataCorrupted(Context([key], NumberNotFit(ColumnFor(row, key).value, t)))
  {
    match ColumnFor(row, key)
    case Failure(e) => Failure(e)
    case Success(column) =>
      if Fits(t, column.value.int64) then Success(column.value.int64)
      else Failure(DataCorrupted(Context([key], NumberNotFit(column, t))))
  }

  /** `bool(forKey:)`: nonzero means true. */
  function Bool(row: Row, key: CodingKey): (r: Result<bool, DecodingError>)
    requires WellFormed(row)
    ensures r.Success? <==> key.stringValue in row.columnIndexByName
    ensures r.Success? ==> r.value == (ColumnFor(row, key).value.value.int64 != 0)
    ensures r.Failure? ==> r.error == ColumnFor(row, key).error
  {
    match Integer(row, Int64, key)
    case Failure(e) => Failure(e)
    case Success(n) => Success(n != 0)
  }

  /** `string(forKey:)`: the column's text up to its first NUL, or
      `valueNotFound(String)` when it has none. */
  function String(row: Row, key: CodingKey): (r: Result<string, DecodingError>)
    requires WellFormed(row)
    ensures r.Success? <==> ColumnFor(row, key).Success? && ColumnFor(row, key).value.value.text.Some?
    ensures r.Success? ==> r.value == UpToNul(ColumnFor(row, key).value.value.text.value)
    ensures ColumnFor(row, key).Failure? ==> r == Failure(ColumnFor(row, key).error)
    ensures ColumnFor(row, key).Success? && r.Failure? ==> r.error == ValueNotFound(StringType, Context([key], ""))
  {
    match ColumnFor(row, key)
    case Failure(e) => Failure(e)
    case Success(column) =>
      if column.value.text.Some? then Success(UpToNul(column.value.text.value))
      else Failure(ValueNotFound(StringType, Context([key], "")))
  }

  /** The `Data` branch of `decode(_:forKey:)`: the blob itself, read without a column decoder. */
  function Blob(row: Row, key: CodingKey): (r: Result<seq<byte>, DecodingError>)
    requires WellFormed(row)
    ensures r.Success? <==> ColumnFor(row, key).Success? && ColumnFor(row, key).value.value.blob.Some?
    ensures r.Success? ==> r.value == ColumnFor(row, key).value.value.blob.value
    ensures ColumnFor(row, key).Failure? ==> r == Failure(ColumnFor(row, key).error)
    ensures ColumnFor(row, key).Success? && r.Failure? ==> r.error == ValueNotFound(DataType, Context([key], ""))
  {
    match ColumnFor(row, key)
    case Failure(e) => Failure(e)
    case Success(column) =>
      if column.value.blob.Some? then Success(column.value.blob.value)
      else Failure(ValueNotFound(DataType, Context([key], "")))
  }

  function Wrap(r: Result<Value, DecodingError>, some: bool): Result<Value, DecodingError>
  {
    match r
    case Failure(e) => Failure(e)
    case Success(v) => Success(if some then SomeValue(v) else WrappedValue(v))
  }

  /** `type.init(from: decoder)` for the decoder at `level`. */
  function InitFrom(row: Row, s: Shape, level: Level): (r: Result<Value, DecodingError>)
    requires WellFormed(row)
    ensures r.Success? ==> Conforms(r.value, s)
    decreases s, 1, 0
  {
    match s
    case BoolShape | StringShape | IntShape(_) =>
      (match SingleValueContainer(level)
       case Failure(e) => Failure(e)
       case Success(key) => DecodePrimitive(row, s, key))
    case DataShape | ArrayShape => Failure(UnkeyedContainer(level))
    case OptionalShape(w) =>
      (match SingleValueContainer(level)
       case Failure(e) => Failure(e)
       case Success(key) => if Null(row, key) then Success(NoValue) else Wrap(DecodeValue(row, w, key), true))
    case SingleShape(inner) =>
      (match SingleValueContainer(level)
       case Failure(e) => Failure(e)
       case Success(key) => Wrap(DecodeValue(row, inner, key), false))
    case RecordShape(fields) =>
      if KeyedContainer(level).Failure? then Failure(KeyedContainer(level).error)
      else
        match DecodeFields(row, s, 0)
        case Failure(e) => Failure(e)
        case Success(values) => Success(RecordValue(values))
  }

  /** The synthesized `init(from:)` of a record, reading its fields from `i` on. */
  function DecodeFields(row: Row, record: Shape, i: nat): (r: Result<seq<Value>, DecodingError>)
    requires WellFormed(row)
    requires record.RecordShape? && i <= |record.fields|
    ensures r.Success? ==>
      |r.value| == |record.fields| - i &&
      forall j :: 0 <= j < |r.value| ==> Conforms(r.value[j], record.fields[i + j].shape)
    decreases record, 0, |record.fields| - i
  {
    if i == |record.fields| then Success([])
    else
      match FieldDecode(row, record.fields[i])
      case Failure(e) => Failure(e)
      case Success(v) =>
        match DecodeFields(row, record, i + 1)
        case Failure(e) => Failure(e)
        case Success(vs) => Success([v] + vs)
  }

  /** One field of a synthesized record: `decodeIfPresent` for an optional field
      (absent when the key is unknown or the column is null), `decode` otherwise. */
  function FieldDecode(row: Row, f: Field): (r: Result<Value, DecodingError>)
    requires WellFormed(row)
    ensures r.Success? ==> Conforms(r.value, f.shape)
    decreases f.shape, 4, 0
  {
    match f.shape
    case OptionalShape(w) =>
      if !Contains(row, f.key) || Null(row, f.key) then Success(NoValue) else Wrap(DecodeValue(row, w, f.key), true)
    case _ => DecodeValue(row, f.shape, f.key)
  }

  /** The `Bool`, `String` and fixed-width integer overloads of `decode`. */
  function DecodePrimitive(row: Row, s: Shape, key: CodingKey): (r: Result<Value, DecodingError>)
    requires WellFormed(row) && IsPrimitive(s)
    ensures r.Success? ==> Conforms(r.value, s)
    ensures r.Failure? ==> r.error.context.codingPath == [key]
  {
    match s
    case BoolShape =>
      (match Bool(row, key)
       case Failure(e) => Failure(e)
       case Success(b) => Success(BoolValue(b)))
    case StringShape =>
      (match String(row, key)
       case Failure(e) => Failure(e)
       case Success(t) => Success(StringValue(t)))
    case IntShape(t) =>
      (match Integer(row, t, key)
       case Failure(e) => Failure(e)
       case Success(n) => Success(IntValue(n)))
  }

  /** `decode(_:forKey:)` of the keyed container, and `decode(_:)` of a column
      decoder's single-value container: they dispatch alike. */
  function DecodeValue(row: Row, s: Shape, key: CodingKey): (r: Result<Value, DecodingError>)
    requires WellFormed(row)
    ensures r.Success? ==> Conforms(r.value, s)
    decreases s, 3, 0
  {
    if IsPrimitive(s) then DecodePrimitive(row, s, key) else Generic(row, s, key)
  }

  /** `_RowDecoder.decode(_:forKey:)`: `Data` reads the blob directly; any other type
      is decoded by a `_ColumnDecoder` for the key. */
  function Generic(row: Row, s: Shape, key: CodingKey): (r: Result<Value, DecodingError>)
    requires WellFormed(row)
    ensures r.Success? ==> Conforms(r.value, s)
    decreases s, 2, 0
  {
    if s.DataShape? then
      match Blob(row, key)
      case Failure(e) => Failure(e)
      case Success(d) => Success(DataValue(d))
    else InitFrom(row, s, ColumnLevel(key))
  }

  /** `RowDecoder.decode(_:from:)`. */
  function Decode(row: Row, s: Shape): (r: Result<Value, DecodingError>)
    requires WellFormed(row)
    ensures !s.RecordShape? ==> r == Failure(TypeMismatch(PreparedStatementType, Context([], "")))
  {
    InitFrom(row, s, TopLevel)
  }

  // Every error raised below a field carries exactly that field's key as its path.

  lemma {:induction false} ColumnLevelErrorPath(row: Row, s: Shape, key: CodingKey)
    requires WellFormed(row)
    ensures InitFrom(row, s, ColumnLevel(key)).Failure? ==> InitFrom(row, s, ColumnLevel(key)).error.context.codingPath == [key]
    decreases s, 1, 0
  {
    match s
    case OptionalShape(w) => DecodeValueErrorPath(row, w, key);
    case SingleShape(inner) => DecodeValueErrorPath(row, inner, key);
    case BoolShape | StringShape | IntShape(_) | DataShape | ArrayShape | RecordShape(_) =>
  }

  lemma {:induction false} DecodeValueErrorPath(row: Row, s: Shape, key: CodingKey)
    requires WellFormed(row)
    ensures DecodeValue(row, s, key).Failure? ==> DecodeValue(row, s, key).error.context.codingPath == [key]
    decreases s, 3, 0
  {
    if !IsPrimitive(s) && !s.DataShape? {
      ColumnLevelErrorPath(row, s, key);
    }
  }

  lemma FieldErrorPath(row: Row, f: Field)
    requires WellFormed(row)
    ensures FieldDecode(row, f).Failure? ==> FieldDecode(row, f).error.context.codingPath == [f.key]
  {
    match f.shape
    case OptionalShape(w) => DecodeValueErrorPath(row, w, f.key);
    case _ => DecodeValueErrorPath(row, f.shape, f.key);
  }

  lemma {:induction false} DecodeFieldsErrorPath(row: Row, record: Shape, i: nat)
    requires WellFormed(row)
    requires record.RecordShape? && i <= |record.fields|
    ensures DecodeFields(row, record, i).Failure? ==>
      exists j :: i <= j < |record.fields| && DecodeFields(row, record, i).error.context.codingPath == [record.fields[j].key]
    decreases |record.fields| - i
  {
    if i < |record.fields| {
      FieldErrorPath(row, record.fields[i]);
      DecodeFieldsErrorPath(row, record, i + 1);
    }
  }

  /** A row decodes only into a record. Its errors point either at the top
      (`typeMismatch` with an empty path) or at exactly one of its fields. */
  lemma DecodeErrorPath(row: Row, s: Shape)
    requires WellFormed(row)
    ensures Decode(row, s).Success? ==> s.RecordShape? && Conforms(Decode(row, s).value, s)
    ensures Decode(row, s).Failure? && s.RecordShape? ==>
      exists j :: 0 <= j < |s.fields| && Decode(row, s).error.context.codingPath == [s.fields[j].key]
  {
    if s.RecordShape? {
      DecodeFieldsErrorPath(row, s, 0);
    }
  }
}
