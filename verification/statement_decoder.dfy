/** `StatementDecoder` and its private `_StatementDecoder`: a decoder object over a
    prepared statement whose coding path grows by one key while a nested value
    decodes and shrinks again afterwards. */
module StatementDecoders {
  import opened Wrappers
  import opened Sqlite
  import opened Coding
  import opened PreparedStatements
  import S = StatementDecoding

  /** The class runs the single-value `Bool` read as the source has it, at line 149. */
  const AS_WRITTEN := true

  /** `values` decoded before the fields that `rest` covers. */
  function PrependFields(values: seq<Value>, rest: Result<seq<Value>, DecodingError>): Result<seq<Value>, DecodingError>
  {
    if rest.Success? then Success(values + rest.value) else rest
  }

  class StatementDecoder {
    const statement: Statement
    /** `statement.columnIndexByName`, captured when the decoder is made. */
    const columns: map<string, int32>
    var codingPath: seq<CodingKey>

    /** `init(statement:userInfo:)`. */
    constructor (statement: Statement)
      requires |statement.columnNames| <= INT32_MAX && DistinctNames(statement.columnNames)
      ensures this.statement == statement
      ensures columns == ColumnIndexByName(statement.columnNames)
      ensures codingPath == []
    {
      this.statement := statement;
      columns := ColumnIndexByName(statement.columnNames);
      codingPath := [];
    }

    /** The names and the current row the decoder reads. */
    function Src(): S.Source
      reads this, statement
    {
      S.Source(columns, statement.CurrentRow())
    }

    /** `type.init(from: self)`. */
    method InitFrom(s: Shape) returns (r: Result<Value, DecodingError>)
      modifies this
      ensures codingPath == old(codingPath)
      ensures r == S.InitFrom(Src(), s, codingPath, AS_WRITTEN)
      decreases s, 2, 0
    {
      match s
      case BoolShape | StringShape | IntShape(_) =>
        if codingPath == [] {
          r := Failure(S.SingleValueContainer(codingPath).error);
        } else {
          r := S.SingleValueReadAsWritten(Src(), s, codingPath);
        }
      case DataShape | ArrayShape =>
        r := Failure(S.UnkeyedContainer(codingPath));
      case OptionalShape(w) =>
        if codingPath == [] {
          r := Failure(S.SingleValueContainer(codingPath).error);
        } else if S.Null(Src(), codingPath[|codingPath| - 1]) {
          r := Success(NoValue);
        } else {
          var v := DecodeForKey(w, codingPath[|codingPath| - 1], true);
          r := S.Wrap(v, true);
        }
      case SingleShape(inner) =>
        if codingPath == [] {
          r := Failure(S.SingleValueContainer(codingPath).error);
        } else {
          var v := SingleValueDecode(inner);
          r := S.Wrap(v, false);
        }
      case RecordShape(fields) =>
        var vs := DecodeFields(s);
        r := if vs.Success? then Success(RecordValue(vs.value)) else Failure(vs.error);
    }

    /** The synthesized `init(from:)` of a record: its fields in order, stopping at
        the first error. */
    method DecodeFields(record: Shape) returns (r: Result<seq<Value>, DecodingError>)
      requires record.RecordShape?
      modifies this
      ensures codingPath == old(codingPath)
      ensures r == S.DecodeFields(Src(), record, 0, codingPath, AS_WRITTEN)
      decreases record, 1, 0
    {
      var values: seq<Value> := [];
      var i := 0;
      var all := S.DecodeFields(Src(), record, 0, codingPath, AS_WRITTEN);
      if all.Success? {
        assert [] + all.value == all.value;
      }
      while i < |record.fields|
        invariant 0 <= i <= |record.fields|
        invariant codingPath == old(codingPath)
        invariant S.DecodeFields(Src(), record, 0, codingPath, AS_WRITTEN) == PrependFields(values, S.DecodeFields(Src(), record, i, codingPath, AS_WRITTEN))
        decreases |record.fields| - i
      {
        var v := FieldDecode(record.fields[i]);
        if v.Failure? {
          return Failure(v.error);
        }
        var rest := S.DecodeFields(Src(), record, i + 1, codingPath, AS_WRITTEN);
        if rest.Success? {
          assert (values + [v.value]) + rest.value == values + ([v.value] + rest.value);
        }
        values := values + [v.value];
        i := i + 1;
      }
      assert values + [] == values;
      r := Success(values);
    }

    /** One field of a synthesized record. */
    method FieldDecode(f: Field) returns (r: Result<Value, DecodingError>)
      modifies this
      ensures codingPath == old(codingPath)
      ensures r == S.FieldDecode(Src(), f, codingPath, AS_WRITTEN)
      decreases f.shape, 5, 0
    {
      match f.shape
      case OptionalShape(w) =>
        if !S.Contains(Src(), f.key) || S.Null(Src(), f.key) {
          r := Success(NoValue);
        } else {
          var v := KeyedDecode(w, f.key);
          r := S.Wrap(v, true);
        }
      case _ =>
        r := KeyedDecode(f.shape, f.key);
    }

    /** `KeyedContainer.decode(_:forKey:)`. */
    method KeyedDecode(s: Shape, key: CodingKey) returns (r: Result<Value, DecodingError>)
      modifies this
      ensures codingPath == old(codingPath)
      ensures r == S.KeyedDecode(Src(), s, key, codingPath, AS_WRITTEN)
      decreases s, 4, 0
    {
      if IsPrimitive(s) {
        r := S.Read(Src(), s, key, codingPath, false);
      } else {
        r := DecodeForKey(s, key, false);
      }
    }

    /** The single-value container's `decode(_:)`. */
    method SingleValueDecode(s: Shape) returns (r: Result<Value, DecodingError>)
      requires codingPath != []
      modifies this
      ensures codingPath == old(codingPath)
      ensures r == S.SingleValueDecode(Src(), s, codingPath, AS_WRITTEN)
      decreases s, 4, 0
    {
      if IsPrimitive(s) {
        r := S.SingleValueReadAsWritten(Src(), s, codingPath);
      } else {
        r := DecodeForKey(s, codingPath[|codingPath| - 1], true);
      }
    }

    /** `decode(_:forKey:single:)`: appends the key to `codingPath` while the value
        decodes itself, and removes it again however that ends. */
    method DecodeForKey(s: Shape, key: CodingKey, single: bool) returns (r: Result<Value, DecodingError>)
      modifies this
      ensures codingPath == old(codingPath)
      ensures r == S.DecodeForKey(Src(), s, key, codingPath, single, AS_WRITTEN)
      decreases s, 3, 0
    {
      if s.DataShape? {
        var blob := S.Blob(Src(), key, codingPath, single);
        r := if blob.Success? then Success(DataValue(blob.value)) else Failure(blob.error);
      } else if single {
        r := InitFrom(s);
      } else {
        codingPath := codingPath + [key];
        r := InitFrom(s);
        codingPath := codingPath[..|codingPath| - 1];
      }
    }
  }

  /** How `PreparedStatement.decode(_:)` turns each row into a value of shape `s`:
      a success is always a value of that shape. */
  function RowDecoding(columnNames: seq<Option<string>>, s: Shape): (decode: seq<ColumnValue> -> Result<Value, DecodingError>)
    requires |columnNames| <= INT32_MAX && DistinctNames(columnNames)
    ensures forall row :: decode(row).Success? ==> Conforms(decode(row).value, s)
  {
    var columns := ColumnIndexByName(columnNames);
    DecodeSound(columns, s);
    row => S.Decode(S.Source(columns, row), s, AS_WRITTEN)
  }

  lemma DecodeSound(columns: map<string, int32>, s: Shape)
    ensures forall row :: var r := S.Decode(S.Source(columns, row), s, AS_WRITTEN); r.Success? ==> Conforms(r.value, s)
  {
    forall row {
      S.InitFromSound(S.Source(columns, row), s, [], AS_WRITTEN);
    }
  }

  /** `StatementDecoder.decode(_:from:)`, which `PreparedStatement.decode(_:)` calls:
      a fresh decoder at the root path decodes the current row as `RowDecoding` does. */
  method Decode(statement: Statement, s: Shape) returns (r: Result<Value, DecodingError>)
    requires |statement.columnNames| <= INT32_MAX && DistinctNames(statement.columnNames)
    ensures r == S.Decode(S.Source(ColumnIndexByName(statement.columnNames), statement.CurrentRow()), s, AS_WRITTEN)
    ensures r == RowDecoding(statement.columnNames, s)(statement.CurrentRow())
  {
    var decoder := new StatementDecoder(statement);
    r := decoder.InitFrom(s);
  }

  /** `PreparedStatement.array(decoding:)`: every row goes through a fresh
      `StatementDecoder` over the statement. */
  method DecodeArray(statement: Statement, s: Shape) returns (r: Result<seq<Value>, ArrayError<DecodingError>>)
    requires statement.Valid() && DistinctNames(statement.columnNames)
    modifies statement
    ensures statement.Valid()
    ensures (r, statement.cursor) == Collect(statement.script, old(statement.cursor), statement.errstr, RowDecoding(statement.columnNames, s))
    ensures statement.cursor > old(statement.cursor)
    ensures var last := StepAt(statement.script, statement.cursor - 1);
      && statement.lastCode == StepCode(last)
      && statement.errmsg == if last.Failed? then last.errmsg else old(statement.errmsg)
  {
    r := statement.ArrayDecoding(RowDecoding(statement.columnNames, s));
  }
}
