/** What `_StatementDecoder` computes when a type decodes itself from the statement's
    current row, as functions of the row and of the coding path at the time of the
    call. The class in `StatementDecoders` is proved to compute exactly these. */
module StatementDecoding {
  import opened Wrappers
  import opened Sqlite
  import opened Decimal
  import opened Coding
  import RowDecoders

  /** What the decoder reads: `statement.columnIndexByName` and the current row. */
  datatype Source = Source(columns: map<string, int32>, row: seq<ColumnValue>)

  const KEY_NOT_FOUND := "Column index not found for key: "
  const NO_SINGLE_KEY := "key not found"
  const NO_UNKEYED := "`unkeyedContainer()` not supported"

  /** `context(_:_:_:)`: the decoder's path, with the key appended unless a
      single-value container is reading (its key already ends the path). */
  function Ctx(p: seq<CodingKey>, key: CodingKey, single: bool, message: string): (c: Context)
    ensures c.debugDescription == message
    ensures single ==> c.codingPath == p
    ensures !single ==> c.codingPath == p + [key] && |c.codingPath| == |p| + 1
  {
    Context(if single then p else p + [key], message)
  }

  const NOT_FIT_OPEN := "Parsed SQL number <"

  /** `numberNotFit(_:value:)` applied to a 64-bit column value: the value in
      decimal, which reads back as that value, between angle brackets, then the
      target type. */
  function NumberNotFit(t: IntType, value: int): (m: string)
    ensures var tail := "> does not fit in " + TypeName(t) + ".";
      && |NOT_FIT_OPEN| < |m| - |tail|
      && m[..|NOT_FIT_OPEN|] == NOT_FIT_OPEN
      && m[|m| - |tail|..] == tail
      && var quoted := m[|NOT_FIT_OPEN|..|m| - |tail|];
         quoted == IntToString(value) && ParseInt(quoted) == value
  {
    var tail := "> does not fit in " + TypeName(t) + ".";
    IntRoundTrip(value);
    ThreeParts(NOT_FIT_OPEN, IntToString(value), tail);
    NOT_FIT_OPEN + IntToString(value) + tail
  }

  /** `columnIndex(forKey:single:)`. */
  function ColumnIndex(src: Source, key: CodingKey, p: seq<CodingKey>, single: bool): (r: Result<int32, DecodingError>)
    ensures r.Success? <==> key.stringValue in src.columns
    ensures r.Success? ==> r.value == src.columns[key.stringValue]
    ensures r.Failure? ==> r.error == KeyNotFound(key, Ctx(p, key, single, KEY_NOT_FOUND + key.description))
  {
    if key.stringValue in src.columns then Success(src.columns[key.stringValue])
    else Failure(KeyNotFound(key, Ctx(p, key, single, KEY_NOT_FOUND + key.description)))
  }

  /** The column a known key designates, as the engine reports it. */
  function ColumnOf(src: Source, key: CodingKey): ColumnValue
    requires key.stringValue in src.columns
  {
    ColumnAt(src.row, src.columns[key.stringValue])
  }

  /** `null(for:)`: an unknown key reads as null. */
  function Null(src: Source, key: CodingKey): (isNull: bool)
    ensures isNull <==> key.stringValue !in src.columns || ColumnOf(src, key).isNull
  {
    if key.stringValue in src.columns then ColumnOf(src, key).isNull else true
  }

  /** `KeyedContainer.contains(_:)`. */
  function Contains(src: Source, key: CodingKey): (b: bool)
    ensures b <==> key.stringValue in src.columns
  {
    key.stringValue in src.columns.Keys
  }

  /** `integer(_:forKey:single:)`: the column's 64-bit value narrowed exactly into `t`. */
  function Integer(src: Source, t: IntType, key: CodingKey, p: seq<CodingKey>, single: bool): (r: Result<int, DecodingError>)
    ensures r.Success? <==> key.stringValue in src.columns && Fits(t, ColumnOf(src, key).int64)
    ensures r.Success? ==> r.value == ColumnOf(src, key).int64
    ensures key.stringValue in src.columns && r.Failure? ==>
      r.error == DataCorrupted(Ctx(p, key, single, NumberNotFit(t, ColumnOf(src, key).int64)))
    ensures key.stringValue !in src.columns ==> r == Failure(ColumnIndex(src, key, p, single).error)
  {
    match ColumnIndex(src, key, p, single)
    case Failure(e) => Failure(e)
    case Success(index) =>
      var value := ColumnAt(src.row, index).int64;
      if Fits(t, value) then Success(value)
      else Failure(DataCorrupted(Ctx(p, key, single, NumberNotFit(t, value))))
  }

  /** `bool(forKey:)` with the flag passed through: nonzero means true. */
  function Bool(src: Source, key: CodingKey, p: seq<CodingKey>, single: bool): (r: Result<bool, DecodingError>)
    ensures r.Success? <==> key.stringValue in src.columns
    ensures r.Success? ==> r.value == (ColumnOf(src, key).int64 != 0)
    ensures r.Failure? ==> r.error == ColumnIndex(src, key, p, single).error
  {
    match Integer(src, Int64, key, p, single)
    case Failure(e) => Failure(e)
    case Success(n) => Success(n != 0)
  }

  /** `string(forKey:single:)`: the column's text through `columnString(at:)`, so up
      to its first NUL, or `valueNotFound(String)`. */
  function String(src: Source, key: CodingKey, p: seq<CodingKey>, single: bool): (r: Result<string, DecodingError>)
    ensures r.Success? <==> key.stringValue in src.columns && ColumnOf(src, key).text.Some?
    ensures r.Success? ==> r.value == UpToNul(ColumnOf(src, key).text.value)
    ensures key.stringValue in src.columns && r.Failure? ==> r.error == ValueNotFound(StringType, Ctx(p, key, single, ""))
    ensures key.stringValue !in src.columns ==> r == Failure(ColumnIndex(src, key, p, single).error)
  {
    match ColumnIndex(src, key, p, single)
    case Failure(e) => Failure(e)
    case Success(index) =>
      var text := CText(ColumnAt(src.row, index));
      if text.Some? then Success(text.value) else Failure(ValueNotFound(StringType, Ctx(p, key, single, "")))
  }

  /** The `Data` branch of `decode(_:forKey:single:)`: the column's blob. */
  function Blob(src: Source, key: CodingKey, p: seq<CodingKey>, single: bool): (r: Result<seq<byte>, DecodingError>)
    ensures r.Success? <==> key.stringValue in src.columns && ColumnOf(src, key).blob.Some?
    ensures r.Success? ==> r.value == ColumnOf(src, key).blob.value
    ensures key.stringValue in src.columns && r.Failure? ==> r.error == ValueNotFound(DataType, Ctx(p, key, single, ""))
    ensures key.stringValue !in src.columns ==> r == Failure(ColumnIndex(src, key, p, single).error)
  {
    match ColumnIndex(src, key, p, single)
    case Failure(e) => Failure(e)
    case Success(index) =>
      var blob := ColumnAt(src.row, index).blob;
      if blob.Some? then Success(blob.value) else Failure(ValueNotFound(DataType, Ctx(p, key, single, "")))
  }

  /** The `Bool`, `String` and integer readers, with the `single` flag as given. */
  function Read(src: Source, s: Shape, key: CodingKey, p: seq<CodingKey>, single: bool): (r: Result<Value, DecodingError>)
    requires IsPrimitive(s)
    ensures r.Success? ==> Conforms(r.value, s)
    ensures r.Failure? ==> r.error.context.codingPath == Ctx(p, key, single, "").codingPath
  {
    match s
    case BoolShape =>
      (match Bool(src, key, p, single)
       case Failure(e) => Failure(e)
       case Success(b) => Success(BoolValue(b)))
    case StringShape =>
      (match String(src, key, p, single)
       case Failure(e) => Failure(e)
       case Success(t) => Success(StringValue(t)))
    case IntShape(t) =>
      (match Integer(src, t, key, p, single)
       case Failure(e) => Failure(e)
       case Success(n) => Success(IntValue(n)))
  }

  /** The single-value container's `decode(Bool.self)` … `decode(UInt64.self)` as the
      source has them: every reader passes `single: true` except `Bool`'s, which
      goes through `bool(forKey:)` and so appends the key a second time to its errors. */
  function SingleValueReadAsWritten(src: Source, s: Shape, p: seq<CodingKey>): (r: Result<Value, DecodingError>)
    requires IsPrimitive(s) && p != []
    ensures !s.BoolShape? ==> r == SingleValueRead(src, s, p)
    ensures s.BoolShape? ==> r == Read(src, s, p[|p| - 1], p, false)
  {
    Read(src, s, p[|p| - 1], p, !s.BoolShape?)
  }

  /** The single-value container's primitive readers, every one with `single: true`:
      errors carry the decoder's path, which already ends with the key. */
  function SingleValueRead(src: Source, s: Shape, p: seq<CodingKey>): (r: Result<Value, DecodingError>)
    requires IsPrimitive(s) && p != []
    ensures r.Failure? ==> r.error.context.codingPath == p
    ensures r.Success? ==> Conforms(r.value, s)
  {
    Read(src, s, p[|p| - 1], p, true)
  }

  /** The source's single-value `decode(Bool.self)` reports a missing key at
      `[k, k]`; read with `single: true` it reports `[k]`. */
  lemma SingleValueBoolRepeatsKey(src: Source, k: CodingKey)
    requires k.stringValue !in src.columns
    ensures SingleValueReadAsWritten(src, BoolShape, [k]).Failure?
    ensures SingleValueReadAsWritten(src, BoolShape, [k]).error.context.codingPath == [k, k]
    ensures SingleValueRead(src, BoolShape, [k]).error.context.codingPath == [k]
  {
  }

  /** The primitive readers of the single-value container: the source's when
      `asWritten`, the corrected ones otherwise. Every decoding function below takes
      the same flag and passes it down. */
  function SingleValuePrimitive(src: Source, s: Shape, p: seq<CodingKey>, asWritten: bool): (r: Result<Value, DecodingError>)
    requires IsPrimitive(s) && p != []
    ensures asWritten ==> r == SingleValueReadAsWritten(src, s, p)
    ensures !asWritten ==> r == SingleValueRead(src, s, p)
  {
    if asWritten then SingleValueReadAsWritten(src, s, p) else SingleValueRead(src, s, p)
  }

  /** `singleValueContainer()`: refused at the root, where no key names a column. */
  function SingleValueContainer(p: seq<CodingKey>): (r: Result<CodingKey, DecodingError>)
    ensures r.Success? <==> p != []
    ensures r.Success? ==> r.value == p[|p| - 1]
    ensures r.Failure? ==> r.error == DataCorrupted(Context([], NO_SINGLE_KEY))
  {
    if p == [] then Failure(DataCorrupted(Context(p, NO_SINGLE_KEY))) else Success(p[|p| - 1])
  }

  /** `unkeyedContainer()`: never supported. */
  function UnkeyedContainer(p: seq<CodingKey>): (e: DecodingError)
    ensures e == DataCorrupted(Context(p, NO_UNKEYED))
  {
    DataCorrupted(Context(p, NO_UNKEYED))
  }

  function Wrap(r: Result<Value, DecodingError>, some: bool): Result<Value, DecodingError>
  {
    match r
    case Failure(e) => Failure(e)
    case Success(v) => Success(if some then SomeValue(v) else WrappedValue(v))
  }

  /** `type.init(from: decoder)` while the decoder's path is `p`. */
  function InitFrom(src: Source, s: Shape, p: seq<CodingKey>, asWritten: bool): Result<Value, DecodingError>
    decreases s, 2, 0
  {
    match s
    case BoolShape | StringShape | IntShape(_) =>
      if p == [] then Failure(SingleValueContainer(p).error) else SingleValuePrimitive(src, s, p, asWritten)
    case DataShape | ArrayShape => Failure(UnkeyedContainer(p))
    case OptionalShape(w) =>
      (match SingleValueContainer(p)
       case Failure(e) => Failure(e)
       case Success(key) => if Null(src, key) then Success(NoValue) else Wrap(DecodeForKey(src, w, key, p, true, asWritten), true))
    case SingleShape(inner) =>
      if p == [] then Failure(SingleValueContainer(p).error) else Wrap(SingleValueDecode(src, inner, p, asWritten), false)
    case RecordShape(_) =>
      match DecodeFields(src, s, 0, p, asWritten)
      case Failure(e) => Failure(e)
      case Success(values) => Success(RecordValue(values))
  }

  /** A record's synthesized `init(from:)`, from field `i` on, through the keyed container. */
  function DecodeFields(src: Source, record: Shape, i: nat, p: seq<CodingKey>, asWritten: bool): Result<seq<Value>, DecodingError>
    requires record.RecordShape? && i <= |record.fields|
    decreases record, 1, |record.fields| - i
  {
    if i == |record.fields| then Success([])
    else
      match FieldDecode(src, record.fields[i], p, asWritten)
      case Failure(e) => Failure(e)
      case Success(v) =>
        match DecodeFields(src, record, i + 1, p, asWritten)
        case Failure(e) => Failure(e)
        case Success(vs) => Success([v] + vs)
  }

  /** One field: `decodeIfPresent` for an optional one, `decode` otherwise. */
  function FieldDecode(src: Source, f: Field, p: seq<CodingKey>, asWritten: bool): Result<Value, DecodingError>
    decreases f.shape, 5, 0
  {
    match f.shape
    case OptionalShape(w) =>
      if !Contains(src, f.key) || Null(src, f.key) then Success(NoValue) else Wrap(KeyedDecode(src, w, f.key, p, asWritten), true)
    case _ => KeyedDecode(src, f.shape, f.key, p, asWritten)
  }

  /** `KeyedContainer.decode(_:forKey:)`. */
  function KeyedDecode(src: Source, s: Shape, key: CodingKey, p: seq<CodingKey>, asWritten: bool): Result<Value, DecodingError>
    decreases s, 4, 0
  {
    if IsPrimitive(s) then Read(src, s, key, p, false) else DecodeForKey(src, s, key, p, false, asWritten)
  }

  /** The single-value container's `decode(_:)`. */
  function SingleValueDecode(src: Source, s: Shape, p: seq<CodingKey>, asWritten: bool): Result<Value, DecodingError>
    requires p != []
    decreases s, 4, 0
  {
    if IsPrimitive(s) then SingleValuePrimitive(src, s, p, asWritten) else DecodeForKey(src, s, p[|p| - 1], p, true, asWritten)
  }

  /** `decode(_:forKey:single:)`: `Data` is the column's blob; any other type decodes
      itself from the decoder, with the key pushed on the path unless `single`. */
  function DecodeForKey(src: Source, s: Shape, key: CodingKey, p: seq<CodingKey>, single: bool, asWritten: bool): Result<Value, DecodingError>
    decreases s, 3, 0
  {
    if s.DataShape? then
      match Blob(src, key, p, single)
      case Failure(e) => Failure(e)
      case Success(d) => Success(DataValue(d))
    else if single then InitFrom(src, s, p, asWritten)
    else InitFrom(src, s, p + [key], asWritten)
  }

  /** `StatementDecoder.decode(_:from:)`. */
  function Decode(src: Source, s: Shape, asWritten: bool): (r: Result<Value, DecodingError>)
    ensures IsPrimitive(s) || s.OptionalShape? || s.SingleShape? ==> r == Failure(DataCorrupted(Context([], NO_SINGLE_KEY)))
    ensures s.DataShape? || s.ArrayShape? ==> r == Failure(DataCorrupted(Context([], NO_UNKEYED)))
  {
    InitFrom(src, s, [], asWritten)
  }

  // Every decoded value has the requested shape, and every error's path begins
  // with the decoder's path at the time of the call, with or without the fix.

  lemma {:induction false} InitFromSound(src: Source, s: Shape, p: seq<CodingKey>, asWritten: bool)
    ensures var r := InitFrom(src, s, p, asWritten);
      (r.Success? ==> Conforms(r.value, s)) && (r.Failure? ==> PathExtends(r.error, p))
    decreases s, 2, 0
  {
    match s
    case BoolShape | StringShape | IntShape(_) =>
    case DataShape | ArrayShape =>
    case OptionalShape(w) =>
      if p != [] { DecodeForKeySound(src, w, p[|p| - 1], p, true, asWritten); }
    case SingleShape(inner) =>
      if p != [] { SingleValueDecodeSound(src, inner, p, asWritten); }
    case RecordShape(_) =>
      DecodeFieldsSound(src, s, 0, p, asWritten);
  }

  lemma {:induction false} DecodeFieldsSound(src: Source, record: Shape, i: nat, p: seq<CodingKey>, asWritten: bool)
    requires record.RecordShape? && i <= |record.fields|
    ensures var r := DecodeFields(src, record, i, p, asWritten);
      (r.Success? ==>
        |r.value| == |record.fields| - i &&
        forall j :: 0 <= j < |r.value| ==> Conforms(r.value[j], record.fields[i + j].shape)) &&
      (r.Failure? ==> PathExtends(r.error, p))
    decreases record, 1, |record.fields| - i
  {
    if i < |record.fields| {
      FieldDecodeSound(src, record.fields[i], p, asWritten);
      DecodeFieldsSound(src, record, i + 1, p, asWritten);
    }
  }

  lemma {:induction false} FieldDecodeSound(src: Source, f: Field, p: seq<CodingKey>, asWritten: bool)
    ensures var r := FieldDecode(src, f, p, asWritten);
      (r.Success? ==> Conforms(r.value, f.shape)) && (r.Failure? ==> PathExtends(r.error, p))
    decreases f.shape, 5, 0
  {
    match f.shape
    case OptionalShape(w) => KeyedDecodeSound(src, w, f.key, p, asWritten);
    case _ => KeyedDecodeSound(src, f.shape, f.key, p, asWritten);
  }

  lemma {:induction false} KeyedDecodeSound(src: Source, s: Shape, key: CodingKey, p: seq<CodingKey>, asWritten: bool)
    ensures var r := KeyedDecode(src, s, key, p, asWritten);
      (r.Success? ==> Conforms(r.value, s)) && (r.Failure? ==> PathExtends(r.error, p))
    decreases s, 4, 0
  {
    if !IsPrimitive(s) { DecodeForKeySound(src, s, key, p, false, asWritten); }
  }

  lemma {:induction false} SingleValueDecodeSound(src: Source, s: Shape, p: seq<CodingKey>, asWritten: bool)
    requires p != []
    ensures var r := SingleValueDecode(src, s, p, asWritten);
      (r.Success? ==> Conforms(r.value, s)) && (r.Failure? ==> PathExtends(r.error, p))
    decreases s, 4, 0
  {
    if !IsPrimitive(s) { DecodeForKeySound(src, s, p[|p| - 1], p, true, asWritten); }
  }

  lemma {:induction false} DecodeForKeySound(src: Source, s: Shape, key: CodingKey, p: seq<CodingKey>, single: bool, asWritten: bool)
    ensures var r := DecodeForKey(src, s, key, p, single, asWritten);
      (r.Success? ==> Conforms(r.value, s)) && (r.Failure? ==> PathExtends(r.error, p))
    decreases s, 3, 0
  {
    if !s.DataShape? {
      if single {
        InitFromSound(src, s, p, asWritten);
      } else {
        InitFromSound(src, s, p + [key], asWritten);
      }
    }
  }

  // The fix changes error paths only: with or without it, a decode succeeds on the
  // same rows with the same value.

  /** Both succeed or both fail, and a success is the same value. */
  predicate Agree(a: Result<Value, DecodingError>, b: Result<Value, DecodingError>)
  {
    a.Success? == b.Success? && (a.Success? ==> a.value == b.value)
  }

  lemma {:induction false} FixInitFrom(src: Source, s: Shape, p: seq<CodingKey>)
    ensures Agree(InitFrom(src, s, p, true), InitFrom(src, s, p, false))
    decreases s, 2, 0
  {
    match s
    case BoolShape | StringShape | IntShape(_) =>
    case DataShape | ArrayShape =>
    case OptionalShape(w) =>
      if p != [] { FixDecodeForKey(src, w, p[|p| - 1], p, true); }
    case SingleShape(inner) =>
      if p != [] { FixSingleValueDecode(src, inner, p); }
    case RecordShape(_) =>
      FixDecodeFields(src, s, 0, p);
  }

  lemma {:induction false} FixDecodeFields(src: Source, record: Shape, i: nat, p: seq<CodingKey>)
    requires record.RecordShape? && i <= |record.fields|
    ensures var a := DecodeFields(src, record, i, p, true);
      var b := DecodeFields(src, record, i, p, false);
      a.Success? == b.Success? && (a.Success? ==> a.value == b.value)
    decreases record, 1, |record.fields| - i
  {
    if i < |record.fields| {
      FixFieldDecode(src, record.fields[i], p);
      FixDecodeFields(src, record, i + 1, p);
    }
  }

  lemma {:induction false} FixFieldDecode(src: Source, f: Field, p: seq<CodingKey>)
    ensures Agree(FieldDecode(src, f, p, true), FieldDecode(src, f, p, false))
    decreases f.shape, 5, 0
  {
    match f.shape
    case OptionalShape(w) => FixKeyedDecode(src, w, f.key, p);
    case _ => FixKeyedDecode(src, f.shape, f.key, p);
  }

  lemma {:induction false} FixKeyedDecode(src: Source, s: Shape, key: CodingKey, p: seq<CodingKey>)
    ensures Agree(KeyedDecode(src, s, key, p, true), KeyedDecode(src, s, key, p, false))
    decreases s, 4, 0
  {
    if !IsPrimitive(s) { FixDecodeForKey(src, s, key, p, false); }
  }

  lemma {:induction false} FixSingleValueDecode(src: Source, s: Shape, p: seq<CodingKey>)
    requires p != []
    ensures Agree(SingleValueDecode(src, s, p, true), SingleValueDecode(src, s, p, false))
    decreases s, 4, 0
  {
    if !IsPrimitive(s) { FixDecodeForKey(src, s, p[|p| - 1], p, true); }
  }

  lemma {:induction false} FixDecodeForKey(src: Source, s: Shape, key: CodingKey, p: seq<CodingKey>, single: bool)
    ensures Agree(DecodeForKey(src, s, key, p, single, true), DecodeForKey(src, s, key, p, single, false))
    decreases s, 3, 0
  {
    if !s.DataShape? {
      if single {
        FixInitFrom(src, s, p);
      } else {
        FixInitFrom(src, s, p + [key]);
      }
    }
  }

  /** `StatementDecoder` as written and with the fix decode the same rows into the
      same values; they differ only in the path of some errors. */
  lemma FixChangesOnlyErrors(src: Source, s: Shape)
    ensures Agree(Decode(src, s, true), Decode(src, s, false))
  {
    FixInitFrom(src, s, []);
  }

  /** The input that shows the source's single-value `Bool` read: a record whose
      field `k` is a wrapper around a `Bool`, with no column `k`. As written the
      error path is `[k, k]`; with the fix it is `[k]`. */
  lemma BoolWrapperErrorPath(src: Source, k: CodingKey)
    requires k.stringValue !in src.columns
    ensures var s := RecordShape([Field(k, SingleShape(BoolShape))]);
      var e := KeyNotFound(k, Context([k], KEY_NOT_FOUND + k.description));
      && Decode(src, s, true) == Failure(e.(context := Context([k, k], e.context.debugDescription)))
      && Decode(src, s, false) == Failure(e)
  {
    var s := RecordShape([Field(k, SingleShape(BoolShape))]);
    var missing := ColumnIndex(src, k, [k], false).error;
    assert [] + [k] == [k];
    assert missing.context.codingPath == [k, k];
    assert SingleValueDecode(src, BoolShape, [k], true) == Failure(missing);
    assert InitFrom(src, SingleShape(BoolShape), [k], true) == Failure(missing);
    assert KeyedDecode(src, SingleShape(BoolShape), k, [], true) == Failure(missing);
    assert SingleValueDecode(src, BoolShape, [k], false) == Failure(ColumnIndex(src, k, [k], true).error);
    assert KeyedDecode(src, SingleShape(BoolShape), k, [], false) == Failure(ColumnIndex(src, k, [k], true).error);
    assert s.fields[0] == Field(k, SingleShape(BoolShape));
    assert DecodeFields(src, s, 0, [], true) == Failure(missing);
    assert DecodeFields(src, s, 0, [], false) == Failure(ColumnIndex(src, k, [k], true).error);
  }

  /** A shape with no record inside: decoding it never pushes a key. */
  predicate Flat(s: Shape)
  {
    match s
    case RecordShape(_) => false
    case OptionalShape(w) => Flat(w)
    case SingleShape(inner) => Flat(inner)
    case _ => true
  }

  /** A record whose fields are all flat: the common row type. */
  predicate FlatRecord(s: Shape)
  {
    s.RecordShape? && forall i :: 0 <= i < |s.fields| ==> Flat(s.fields[i].shape)
  }

  // With the fix, below a field's key a flat value's errors carry exactly the
  // decoder's path.

  lemma {:induction false} FlatInitFromErrorPath(src: Source, s: Shape, p: seq<CodingKey>)
    requires Flat(s) && p != []
    ensures InitFrom(src, s, p, false).Failure? ==> InitFrom(src, s, p, false).error.context.codingPath == p
    decreases s, 2
  {
    match s
    case OptionalShape(w) => FlatDecodeForKeyErrorPath(src, w, p);
    case SingleShape(inner) =>
      if !IsPrimitive(inner) { FlatDecodeForKeyErrorPath(src, inner, p); }
    case _ =>
  }

  lemma {:induction false} FlatDecodeForKeyErrorPath(src: Source, s: Shape, p: seq<CodingKey>)
    requires Flat(s) && p != []
    ensures var r := DecodeForKey(src, s, p[|p| - 1], p, true, false);
      r.Failure? ==> r.error.context.codingPath == p
    decreases s, 3
  {
    if !s.DataShape? { FlatInitFromErrorPath(src, s, p); }
  }

  lemma FlatKeyedDecodeErrorPath(src: Source, s: Shape, key: CodingKey)
    requires Flat(s)
    ensures KeyedDecode(src, s, key, [], false).Failure? ==> KeyedDecode(src, s, key, [], false).error.context.codingPath == [key]
  {
    if !IsPrimitive(s) && !s.DataShape? {
      assert [] + [key] == [key];
      FlatInitFromErrorPath(src, s, [key]);
    }
  }

  lemma {:induction false} FlatFieldsErrorPath(src: Source, record: Shape, i: nat)
    requires FlatRecord(record) && i <= |record.fields|
    ensures DecodeFields(src, record, i, [], false).Failure? ==>
      exists j :: i <= j < |record.fields| && DecodeFields(src, record, i, [], false).error.context.codingPath == [record.fields[j].key]
    decreases |record.fields| - i
  {
    if i < |record.fields| {
      var f := record.fields[i];
      if f.shape.OptionalShape? {
        FlatKeyedDecodeErrorPath(src, f.shape.wrapped, f.key);
      } else {
        FlatKeyedDecodeErrorPath(src, f.shape, f.key);
      }
      FlatFieldsErrorPath(src, record, i + 1);
      if FieldDecode(src, f, [], false).Failure? {
        assert DecodeFields(src, record, i, [], false).error.context.codingPath == [record.fields[i].key];
      }
    }
  }

  /** With the fix, decoding a record of flat fields fails, if at all, at exactly
      one of its keys. */
  lemma FlatRecordErrorPath(src: Source, s: Shape)
    requires FlatRecord(s)
    ensures Decode(src, s, false).Failure? ==>
      exists j :: 0 <= j < |s.fields| && Decode(src, s, false).error.context.codingPath == [s.fields[j].key]
  {
    FlatFieldsErrorPath(src, s, 0);
  }

  // The two decoders read a row of flat fields alike, with or without the fix.

  /** `row` is the statement's current row seen through `PreparedStatement.Row`. */
  predicate Corresponds(row: RowDecoders.Row, src: Source)
  {
    && row.columnIndexByName == src.columns
    && |row.columns| == |src.row|
    && (forall i :: 0 <= i < |row.columns| ==> row.columns[i].value == src.row[i])
  }

  lemma SameColumn(row: RowDecoders.Row, src: Source, key: CodingKey)
    requires RowDecoders.WellFormed(row) && Corresponds(row, src)
    ensures key.stringValue in src.columns ==> RowDecoders.ColumnFor(row, key).value.value == ColumnOf(src, key)
    ensures RowDecoders.Null(row, key) == Null(src, key)
    ensures RowDecoders.Contains(row, key) == Contains(src, key)
  {
  }

  lemma AgreePrimitive(row: RowDecoders.Row, src: Source, s: Shape, key: CodingKey, p: seq<CodingKey>, single: bool)
    requires RowDecoders.WellFormed(row) && Corresponds(row, src) && IsPrimitive(s)
    ensures Agree(RowDecoders.DecodePrimitive(row, s, key), Read(src, s, key, p, single))
  {
    SameColumn(row, src, key);
  }

  lemma AgreeBlob(row: RowDecoders.Row, src: Source, key: CodingKey, p: seq<CodingKey>, single: bool, asWritten: bool)
    requires RowDecoders.WellFormed(row) && Corresponds(row, src)
    ensures Agree(RowDecoders.DecodeValue(row, DataShape, key), DecodeForKey(src, DataShape, key, p, single, asWritten))
  {
    SameColumn(row, src, key);
  }

  lemma {:induction false} AgreeInitFrom(row: RowDecoders.Row, src: Source, s: Shape, p: seq<CodingKey>, asWritten: bool)
    requires RowDecoders.WellFormed(row) && Corresponds(row, src) && Flat(s) && p != []
    ensures Agree(RowDecoders.InitFrom(row, s, RowDecoders.ColumnLevel(p[|p| - 1])), InitFrom(src, s, p, asWritten))
    decreases s, 1
  {
    var key := p[|p| - 1];
    match s
    case BoolShape | StringShape | IntShape(_) =>
      AgreePrimitive(row, src, s, key, p, true);
      AgreePrimitive(row, src, s, key, p, false);
    case DataShape | ArrayShape =>
    case OptionalShape(w) =>
      SameColumn(row, src, key);
      AgreeDecodeValue(row, src, w, p, asWritten);
    case SingleShape(inner) =>
      if IsPrimitive(inner) {
        AgreePrimitive(row, src, inner, key, p, true);
        AgreePrimitive(row, src, inner, key, p, false);
      } else {
        AgreeDecodeValue(row, src, inner, p, asWritten);
      }
  }

  lemma {:induction false} AgreeDecodeValue(row: RowDecoders.Row, src: Source, s: Shape, p: seq<CodingKey>, asWritten: bool)
    requires RowDecoders.WellFormed(row) && Corresponds(row, src) && Flat(s) && p != []
    ensures Agree(RowDecoders.DecodeValue(row, s, p[|p| - 1]), DecodeForKey(src, s, p[|p| - 1], p, true, asWritten))
    decreases s, 2
  {
    var key := p[|p| - 1];
    if IsPrimitive(s) {
      AgreePrimitive(row, src, s, key, p, true);
      AgreePrimitive(row, src, s, key, p, false);
    } else if s.DataShape? {
      AgreeBlob(row, src, key, p, true, asWritten);
    } else {
      AgreeInitFrom(row, src, s, p, asWritten);
    }
  }

  lemma AgreeKeyed(row: RowDecoders.Row, src: Source, s: Shape, key: CodingKey, asWritten: bool)
    requires RowDecoders.WellFormed(row) && Corresponds(row, src) && Flat(s)
    ensures Agree(RowDecoders.DecodeValue(row, s, key), KeyedDecode(src, s, key, [], asWritten))
  {
    if IsPrimitive(s) {
      AgreePrimitive(row, src, s, key, [], false);
    } else if s.DataShape? {
      AgreeBlob(row, src, key, [], false, asWritten);
    } else {
      assert [] + [key] == [key];
      AgreeInitFrom(row, src, s, [key], asWritten);
    }
  }

  lemma {:induction false} AgreeFields(row: RowDecoders.Row, src: Source, record: Shape, i: nat, asWritten: bool)
    requires RowDecoders.WellFormed(row) && Corresponds(row, src) && FlatRecord(record) && i <= |record.fields|
    ensures var a := RowDecoders.DecodeFields(row, record, i);
      var b := DecodeFields(src, record, i, [], asWritten);
      a.Success? == b.Success? && (a.Success? ==> a.value == b.value)
    decreases |record.fields| - i
  {
    if i < |record.fields| {
      var f := record.fields[i];
      SameColumn(row, src, f.key);
      if f.shape.OptionalShape? {
        AgreeKeyed(row, src, f.shape.wrapped, f.key, asWritten);
      } else {
        AgreeKeyed(row, src, f.shape, f.key, asWritten);
      }
      AgreeFields(row, src, record, i + 1, asWritten);
    }
  }

  /** `RowDecoder` and `StatementDecoder`, as written or with the fix, decode a
      record of flat fields from the same row alike: one succeeds exactly when the
      other does, with the same value. (Their error messages differ.) */
  lemma DecodersAgree(row: RowDecoders.Row, src: Source, s: Shape, asWritten: bool)
    requires RowDecoders.WellFormed(row) && Corresponds(row, src) && FlatRecord(s)
    ensures Agree(RowDecoders.Decode(row, s), Decode(src, s, asWritten))
  {
    AgreeFields(row, src, s, 0, asWritten);
  }
}
