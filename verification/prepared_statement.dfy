/** `PreparedStatement`: the binding's own logic around a compiled SQLite statement.
    The native statement is replaced by an abstract engine state held in the class:
    the parameter slots, the engine's answers to successive steps, a cursor into
    them, and the result-column names. */
module PreparedStatements {
  import opened Wrappers
  import opened Sqlite
  import opened SqlParameters
  import opened DatabaseErrors

  /** A value held in one of the engine's parameter slots. */
  datatype Slot =
    | NullSlot
    | IntegerSlot(integer: int64)
    | FloatSlot(float: Float64)
    | TextSlot(text: string)
    | BlobSlot(bytes: seq<byte>)

  /** What the engine answers to one `sqlite3_step`: a row of data, completion, or a
      failure with its result code and the handle's error message at that moment. */
  datatype StepResult =
    | RowReady(columns: seq<ColumnValue>)
    | Done
    | Failed(code: int32, errmsg: Option<string>)

  /** The result code `sqlite3_step` returns for a given answer. */
  function StepCode(s: StepResult): int32
  {
    match s
    case RowReady(_) => SQLITE_ROW
    case Done => SQLITE_DONE
    case Failed(code, _) => code
  }

  /** A failure never carries one of the codes that mean success. */
  ghost predicate WellFormedScript(script: seq<StepResult>)
  {
    forall s :: s in script && s.Failed? ==> s.code != SQLITE_OK && s.code != SQLITE_ROW && s.code != SQLITE_DONE
  }

  /** The engine's answer to step number `k` since the last reset; once the answers
      run out the statement has finished. */
  function StepAt(script: seq<StepResult>, k: nat): StepResult
  {
    if k < |script| then script[k] else Done
  }

  /** `step()`: `false` on DONE, `true` on ROW, any other code becomes a `DatabaseError`
      carrying that code. */
  function StepOutcome(s: StepResult, errstr: ErrStr): (r: Result<bool, DatabaseError>)
    requires s.Failed? ==> s.code != SQLITE_ROW && s.code != SQLITE_DONE
    ensures r == Success(false) <==> StepCode(s) == SQLITE_DONE
    ensures r == Success(true) <==> StepCode(s) == SQLITE_ROW
    ensures r.Failure? ==> r.error.code == StepCode(s) && r.error == FromHandle(s.code, errstr, s.errmsg)
  {
    var code := StepCode(s);
    if code == SQLITE_DONE then Success(false)
    else if code == SQLITE_ROW then Success(true)
    else Failure(FromHandle(code, errstr, s.errmsg))
  }

  /** The code `sqlite3_reset` returns: the error of the most recent step, if it failed. */
  function ResetCode(lastStep: int32): (code: int32)
    ensures code == SQLITE_OK || code == lastStep
    ensures code == SQLITE_OK <==> lastStep == SQLITE_OK || lastStep == SQLITE_ROW || lastStep == SQLITE_DONE
  {
    if lastStep == SQLITE_OK || lastStep == SQLITE_ROW || lastStep == SQLITE_DONE then SQLITE_OK else lastStep
  }

  /** The code every `sqlite3_bind_*` call returns: misuse once the statement has been
      stepped since its last reset, a range error for an index outside `1...count`. */
  function BindCode(stepped: bool, index: int, count: nat): (code: int32)
    ensures code == SQLITE_OK <==> !stepped && 1 <= index <= count
    ensures code != SQLITE_OK ==> code == SQLITE_MISUSE || code == SQLITE_RANGE
  {
    if stepped then SQLITE_MISUSE else if 1 <= index <= count then SQLITE_OK else SQLITE_RANGE
  }

  /** `Int32(data.count)` in the blob arm of `bind(index:_:)` traps unless the blob's
      length fits in an `Int32`. */
  predicate BlobLengthFits(parameter: Option<SqlParameter>)
  {
    parameter.Some? && parameter.value.Blob? ==> |parameter.value.blobValue| <= INT32_MAX
  }

  /** The slot value `bind(index:_:)` hands to the engine: NULL for `nil` (and for
      `.null`), and the engine bind of the same kind for every other variant. */
  function SlotFor(parameter: Option<SqlParameter>): (slot: Slot)
    ensures parameter.None? || parameter.value.Null? <==> slot.NullSlot?
    ensures parameter.Some? && parameter.value.Int64? ==> slot == IntegerSlot(parameter.value.int64Value)
    ensures parameter.Some? && parameter.value.Double? ==> slot == FloatSlot(parameter.value.doubleValue)
    ensures parameter.Some? && parameter.value.Blob? ==> slot == BlobSlot(parameter.value.blobValue)
    ensures parameter.Some? && parameter.value.Text? ==> slot == TextSlot(UpToNul(parameter.value.textValue))
  {
    match parameter
    case None => NullSlot
    case Some(Null) => NullSlot
    case Some(Int64(n)) => IntegerSlot(n)
    case Some(Double(d)) => FloatSlot(d)
    case Some(Text(t)) => TextSlot(UpToNul(t))
    case Some(Blob(b)) => BlobSlot(b)
  }

  /** Text without NUL characters is bound unchanged. */
  lemma {:induction false} TextWithoutNulBindsUnchanged(t: string)
    requires forall i :: 0 <= i < |t| ==> t[i] != '\0'
    ensures SlotFor(Some(Text(t))) == TextSlot(t)
  {
    if t != [] {
      TextWithoutNulBindsUnchanged(t[1..]);
    }
  }

  /** No two present names are equal: `Dictionary(uniqueKeysWithValues:)` traps otherwise. */
  predicate DistinctNames(names: seq<Option<string>>)
  {
    forall i, j :: 0 <= i < j < |names| && names[i].Some? && names[j].Some? ==> names[i] != names[j]
  }

  /** `columnIndexByName`: every named column's name mapped to its own index. */
  function ColumnIndexByName(names: seq<Option<string>>): (m: map<string, int32>)
    requires |names| <= INT32_MAX
    requires DistinctNames(names)
    ensures forall i :: 0 <= i < |names| && names[i].Some? ==> names[i].value in m && m[names[i].value] == i
    ensures forall n :: n in m ==> 0 <= m[n] < |names| && names[m[n]] == Some(n)
  {
    if names == [] then map[]
    else
      var last := |names| - 1;
      var m := ColumnIndexByName(names[..last]);
      match names[last]
      case None => m
      case Some(n) => m[n := last]
  }

  /** `sqlite3_bind_parameter_index`: the 1-based index of the first parameter with this
      name, or 0 when there is none. */
  function ParameterIndex(names: seq<Option<string>>, name: string): (index: int32)
    requires |names| <= INT32_MAX
    ensures 0 <= index <= |names|
    ensures index == 0 <==> forall i :: 0 <= i < |names| ==> names[i] != Some(name)
    ensures index > 0 ==> names[index - 1] == Some(name)
    ensures forall i :: 0 <= i < index - 1 ==> names[i] != Some(name)
  {
    if names == [] then 0
    else if names[0] == Some(name) then 1
    else
      var rest := ParameterIndex(names[1..], name);
      if rest == 0 then 0 else rest + 1
  }

  datatype ArrayError<E> = StepFailed(dbError: DatabaseError) | DecodeFailed(decodeError: E)

  /** What `array(decoding:)` produces when started at step `k`, with the cursor it leaves. */
  function Collect<T, E>(script: seq<StepResult>, k: nat, errstr: ErrStr, decodeRow: seq<ColumnValue> -> Result<T, E>)
    : (Result<seq<T>, ArrayError<E>>, nat)
    decreases |script| - k
  {
    match StepAt(script, k)
    case Done => (Success([]), k + 1)
    case Failed(code, errmsg) => (Failure(StepFailed(FromHandle(code, errstr, errmsg))), k + 1)
    case RowReady(columns) =>
      match decodeRow(columns)
      case Failure(e) => (Failure(DecodeFailed(e)), k + 1)
      case Success(v) => Prepend([v], Collect(script, k + 1, errstr, decodeRow))
  }

  function Prepend<T, E>(values: seq<T>, rest: (Result<seq<T>, ArrayError<E>>, nat)): (Result<seq<T>, ArrayError<E>>, nat)
  {
    (if rest.0.Success? then Success(values + rest.0.value) else rest.0, rest.1)
  }

  lemma PrependEmpty<T, E>(rest: (Result<seq<T>, ArrayError<E>>, nat))
    ensures Prepend([], rest) == rest
  {
    if rest.0.Success? {
      assert [] + rest.0.value == rest.0.value;
    }
  }

  lemma PrependTwice<T, E>(a: seq<T>, b: seq<T>, rest: (Result<seq<T>, ArrayError<E>>, nat))
    ensures Prepend(a, Prepend(b, rest)) == Prepend(a + b, rest)
  {
    if rest.0.Success? {
      assert a + (b + rest.0.value) == (a + b) + rest.0.value;
    }
  }

  /** The rows the engine produces from step `k` on, up to the first non-row answer. */
  function RowsFrom(script: seq<StepResult>, k: nat): (rows: seq<seq<ColumnValue>>)
    ensures k + |rows| <= |script| || rows == []
    decreases |script| - k
  {
    if StepAt(script, k).RowReady? then [StepAt(script, k).columns] + RowsFrom(script, k + 1) else []
  }

  lemma {:induction false} RowsFromAt(script: seq<StepResult>, k: nat, i: nat)
    requires i < |RowsFrom(script, k)|
    ensures StepAt(script, k + i).RowReady? && RowsFrom(script, k)[i] == StepAt(script, k + i).columns
    decreases |script| - k
  {
    if i > 0 {
      RowsFromAt(script, k + 1, i - 1);
    }
  }

  /** `array(decoding:)` succeeds exactly when every row decodes and the statement then
      finishes with DONE; it then holds one decoded value per row, in step order. An
      empty result set gives `[]`. */
  lemma {:induction false} CollectSucceeds<T, E>(script: seq<StepResult>, k: nat, errstr: ErrStr, decodeRow: seq<ColumnValue> -> Result<T, E>)
    ensures var rows := RowsFrom(script, k);
      var r := Collect(script, k, errstr, decodeRow).0;
      && (r.Success? <==> (forall i :: 0 <= i < |rows| ==> decodeRow(rows[i]).Success?) && StepAt(script, k + |rows|).Done?)
      && (r.Success? ==> |r.value| == |rows| && forall i :: 0 <= i < |rows| ==> decodeRow(rows[i]) == Success(r.value[i]))
    decreases |script| - k
  {
    if StepAt(script, k).RowReady? {
      var rows := RowsFrom(script, k);
      var tail := RowsFrom(script, k + 1);
      assert rows == [StepAt(script, k).columns] + tail;
      if decodeRow(rows[0]).Success? {
        CollectSucceeds(script, k + 1, errstr, decodeRow);
        assert forall i :: 1 <= i < |rows| ==> rows[i] == tail[i - 1];
        assert forall i :: 0 <= i < |tail| ==> tail[i] == rows[i + 1];
        assert k + |rows| == k + 1 + |tail|;
        var r := Collect(script, k, errstr, decodeRow).0;
        var rt := Collect(script, k + 1, errstr, decodeRow).0;
        assert r.Success? <==> rt.Success?;
        assert (forall i :: 0 <= i < |rows| ==> decodeRow(rows[i]).Success?)
           <==> (forall i :: 0 <= i < |tail| ==> decodeRow(tail[i]).Success?);
      }
    }
  }

  /** The first error aborts the whole call: a decoding failure is the one of the first
      row that fails to decode, and a step failure comes only after every row decoded. */
  lemma {:induction false} CollectFirstFailure<T, E>(script: seq<StepResult>, k: nat, errstr: ErrStr, decodeRow: seq<ColumnValue> -> Result<T, E>)
    ensures var rows := RowsFrom(script, k);
      var r := Collect(script, k, errstr, decodeRow).0;
      && (r.Failure? && r.error.DecodeFailed? ==>
            exists i :: 0 <= i < |rows| && decodeRow(rows[i]) == Failure(r.error.decodeError)
                     && forall j :: 0 <= j < i ==> decodeRow(rows[j]).Success?)
      && (r.Failure? && r.error.StepFailed? ==>
            (forall i :: 0 <= i < |rows| ==> decodeRow(rows[i]).Success?)
            && StepAt(script, k + |rows|).Failed?
            && r.error.dbError == FromHandle(StepAt(script, k + |rows|).code, errstr, StepAt(script, k + |rows|).errmsg))
    decreases |script| - k
  {
    var rows := RowsFrom(script, k);
    var r := Collect(script, k, errstr, decodeRow).0;
    if StepAt(script, k).RowReady? && decodeRow(StepAt(script, k).columns).Success? {
      var tail := RowsFrom(script, k + 1);
      assert rows == [StepAt(script, k).columns] + tail;
      CollectFirstFailure(script, k + 1, errstr, decodeRow);
      assert forall i :: 1 <= i < |rows| ==> rows[i] == tail[i - 1];
      if r.Failure? && r.error.DecodeFailed? {
        var i :| 0 <= i < |tail| && decodeRow(tail[i]) == Failure(r.error.decodeError)
                 && forall j :: 0 <= j < i ==> decodeRow(tail[j]).Success?;
        assert decodeRow(rows[i + 1]) == Failure(r.error.decodeError);
        assert forall j :: 0 <= j < i + 1 ==> decodeRow(rows[j]).Success? by {
          forall j | 0 <= j < i + 1 ensures decodeRow(rows[j]).Success? {
            if j > 0 { assert rows[j] == tail[j - 1]; }
          }
        }
      }
    } else if StepAt(script, k).RowReady? {
      if r.Failure? && r.error.DecodeFailed? {
        assert decodeRow(rows[0]) == Failure(r.error.decodeError);
      }
    }
  }

  /** A compiled statement together with the engine state the binding reads and changes. */
  class Statement {
    /** The statement's parameter names, slot 1 first (`sqlite3_bind_parameter_name`). */
    const parameterNames: seq<Option<string>>
    /** The result-column names (`sqlite3_column_name`). */
    const columnNames: seq<Option<string>>
    /** The engine's answers to successive steps after a reset. */
    const script: seq<StepResult>
    const errstr: ErrStr
    /** The parameter slots; slot `i` (1-based) is `bindings[i - 1]`. */
    const bindings: array<Slot>
    /** Number of steps taken since the last reset. */
    var cursor: nat
    /** Result code of the most recent step (`SQLITE_OK` before the first). */
    var lastCode: int32
    /** The database handle's current `sqlite3_errmsg`. */
    var errmsg: Option<string>

    ghost predicate Valid()
      reads this
    {
      && bindings.Length == |parameterNames| <= INT32_MAX
      && |columnNames| <= INT32_MAX
      && WellFormedScript(script)
      && lastCode == (if cursor == 0 then SQLITE_OK else StepCode(StepAt(script, cursor - 1)))
    }

    /** `init(stmt:)`, taking over a freshly compiled statement: every slot NULL,
        nothing stepped yet. */
    constructor (parameterNames: seq<Option<string>>, columnNames: seq<Option<string>>,
                 script: seq<StepResult>, errstr: ErrStr, errmsg: Option<string>)
      requires |parameterNames| <= INT32_MAX && |columnNames| <= INT32_MAX
      requires WellFormedScript(script)
      ensures Valid() && fresh(bindings)
      ensures this.parameterNames == parameterNames && this.columnNames == columnNames
      ensures this.script == script && this.errstr == errstr && this.errmsg == errmsg
      ensures forall i :: 0 <= i < bindings.Length ==> bindings[i] == NullSlot
      ensures cursor == 0 && lastCode == SQLITE_OK
    {
      this.parameterNames := parameterNames;
      this.columnNames := columnNames;
      this.script := script;
      this.errstr := errstr;
      this.errmsg := errmsg;
      bindings := new Slot[|parameterNames|](_ => NullSlot);
      cursor := 0;
      lastCode := SQLITE_OK;
    }

    /** The row the last step produced, or no columns when it produced none. Like
        `ColumnAt`, an engine view whose contract spells out its two cases. */
    function CurrentRow(): (row: seq<ColumnValue>)
      reads this
      ensures cursor > 0 && StepAt(script, cursor - 1).RowReady? ==> row == StepAt(script, cursor - 1).columns
      ensures !(cursor > 0 && StepAt(script, cursor - 1).RowReady?) ==> row == []
    {
      if cursor > 0 && StepAt(script, cursor - 1).RowReady? then StepAt(script, cursor - 1).columns else []
    }

    // Readers by column index. Without a current row, or for an index out of range,
    // the engine answers NULL.

    /** `string(at:)`: the column's text up to its first NUL. */
    function StringAt(index: int32): (s: Option<string>)
      reads this
      ensures !(0 <= index < |CurrentRow()|) ==> s.None?
      ensures 0 <= index < |CurrentRow()| ==> (s.Some? <==> CurrentRow()[index].text.Some?)
      ensures s.Some? ==> s.value == UpToNul(CurrentRow()[index].text.value)
    {
      CText(ColumnAt(CurrentRow(), index))
    }

    function Int64At(index: int32): (n: int64)
      reads this
      ensures !(0 <= index < |CurrentRow()|) ==> n == 0
      ensures 0 <= index < |CurrentRow()| ==> n == CurrentRow()[index].int64
    {
      ColumnAt(CurrentRow(), index).int64
    }

    function DoubleAt(index: int32): (d: Float64)
      reads this
      ensures !(0 <= index < |CurrentRow()|) ==> d == Float64(0)
      ensures 0 <= index < |CurrentRow()| ==> d == CurrentRow()[index].double
    {
      ColumnAt(CurrentRow(), index).double
    }

    function BlobAt(index: int32): (b: Option<seq<byte>>)
      reads this
      ensures !(0 <= index < |CurrentRow()|) ==> b.None?
      ensures 0 <= index < |CurrentRow()| ==> b == CurrentRow()[index].blob
    {
      ColumnAt(CurrentRow(), index).blob
    }

    function NullAt(index: int32): (isNull: bool)
      reads this
      ensures !(0 <= index < |CurrentRow()|) ==> isNull
      ensures 0 <= index < |CurrentRow()| ==> isNull == CurrentRow()[index].isNull
    {
      ColumnAt(CurrentRow(), index).isNull
    }

    // Readers by column name: an unknown name reads as absent (or as NULL).

    function StringFor(name: string): (s: Option<string>)
      reads this
      requires |columnNames| <= INT32_MAX && DistinctNames(columnNames)
      ensures (forall i :: 0 <= i < |columnNames| ==> columnNames[i] != Some(name)) ==> s.None?
      ensures forall i :: 0 <= i < |columnNames| && columnNames[i] == Some(name) ==> s == StringAt(i)
    {
      var m := ColumnIndexByName(columnNames);
      if name in m then StringAt(m[name]) else None
    }

    function Int64For(name: string): (n: Option<int64>)
      reads this
      requires |columnNames| <= INT32_MAX && DistinctNames(columnNames)
      ensures (forall i :: 0 <= i < |columnNames| ==> columnNames[i] != Some(name)) ==> n.None?
      ensures forall i :: 0 <= i < |columnNames| && columnNames[i] == Some(name) ==> n == Some(Int64At(i))
    {
      var m := ColumnIndexByName(columnNames);
      if name in m then Some(Int64At(m[name])) else None
    }

    function DoubleFor(name: string): (d: Option<Float64>)
      reads this
      requires |columnNames| <= INT32_MAX && DistinctNames(columnNames)
      ensures (forall i :: 0 <= i < |columnNames| ==> columnNames[i] != Some(name)) ==> d.None?
      ensures forall i :: 0 <= i < |columnNames| && columnNames[i] == Some(name) ==> d == Some(DoubleAt(i))
    {
      var m := ColumnIndexByName(columnNames);
      if name in m then Some(DoubleAt(m[name])) else None
    }

    function NullFor(name: string): (isNull: bool)
      reads this
      requires |columnNames| <= INT32_MAX && DistinctNames(columnNames)
      ensures (forall i :: 0 <= i < |columnNames| ==> columnNames[i] != Some(name)) ==> isNull
      ensures forall i :: 0 <= i < |columnNames| && columnNames[i] == Some(name) ==> isNull == NullAt(i)
    {
      var m := ColumnIndexByName(columnNames);
      if name in m then NullAt(m[name]) else true
    }

    /** `sqlite3_step`: take the engine's next answer. */
    method EngineStep() returns (code: int32)
      requires Valid()
      modifies this
      ensures Valid()
      ensures code == StepCode(StepAt(script, old(cursor)))
      ensures cursor == old(cursor) + 1 && lastCode == code
      ensures errmsg == if StepAt(script, old(cursor)).Failed? then StepAt(script, old(cursor)).errmsg else old(errmsg)
    {
      var answer := StepAt(script, cursor);
      code := StepCode(answer);
      if answer.Failed? {
        errmsg := answer.errmsg;
      }
      cursor := cursor + 1;
      lastCode := code;
    }

    /** `step()`. */
    method Step() returns (r: Result<bool, DatabaseError>)
      requires Valid()
      modifies this
      ensures Valid()
      ensures r == StepOutcome(StepAt(script, old(cursor)), errstr)
      ensures cursor == old(cursor) + 1 && lastCode == StepCode(StepAt(script, old(cursor)))
      ensures errmsg == if StepAt(script, old(cursor)).Failed? then StepAt(script, old(cursor)).errmsg else old(errmsg)
    {
      assert StepAt(script, cursor) in script || StepAt(script, cursor).Done?;
      var code := EngineStep();
      if code == SQLITE_DONE {
        r := Success(false);
      } else if code == SQLITE_ROW {
        r := Success(true);
      } else {
        r := Failure(FromHandle(code, errstr, errmsg));
      }
    }

    /** `execute()`: one step that must finish the statement; a row is an error too. */
    method Execute() returns (r: Result<Statement, DatabaseError>)
      requires Valid()
      modifies this
      ensures Valid()
      ensures r == Check(this, StepCode(StepAt(script, old(cursor))), errstr, errmsg, SQLITE_DONE)
      ensures r.Success? <==> StepAt(script, old(cursor)).Done?
      ensures cursor == old(cursor) + 1 && lastCode == StepCode(StepAt(script, old(cursor)))
      ensures errmsg == if StepAt(script, old(cursor)).Failed? then StepAt(script, old(cursor)).errmsg else old(errmsg)
    {
      assert StepAt(script, cursor) in script || StepAt(script, cursor).Done?;
      var code := EngineStep();
      r := Check(this, code, errstr, errmsg, SQLITE_DONE);
    }

    /** `reset()`: back to the initial state, ready to run again; the bound values stay. */
    method Reset() returns (r: Result<Statement, DatabaseError>)
      requires Valid()
      modifies this
      ensures Valid()
      ensures r == Check(this, ResetCode(old(lastCode)), errstr, errmsg)
      ensures cursor == 0 && lastCode == SQLITE_OK && errmsg == old(errmsg)
      ensures bindings[..] == old(bindings[..])
    {
      var code := ResetCode(lastCode);
      cursor := 0;
      lastCode := SQLITE_OK;
      r := Check(this, code, errstr, errmsg);
    }

    /** `clearBindings()`: every parameter slot becomes NULL. */
    method ClearBindings() returns (r: Result<Statement, DatabaseError>)
      requires Valid()
      modifies bindings
      ensures r == Success(this)
      ensures forall i :: 0 <= i < bindings.Length ==> bindings[i] == NullSlot
    {
      var i := 0;
      while i < bindings.Length
        invariant 0 <= i <= bindings.Length
        invariant forall j :: 0 <= j < i ==> bindings[j] == NullSlot
      {
        bindings[i] := NullSlot;
        i := i + 1;
      }
      r := Check(this, SQLITE_OK, errstr, errmsg);
    }

    /** `sqlite3_bind_*`: store `slot` at the 1-based `index` when the engine allows it. */
    method EngineBind(index: int32, slot: Slot) returns (code: int32)
      requires Valid()
      modifies this, bindings
      ensures Valid()
      ensures code == BindCode(cursor > 0, index, bindings.Length)
      ensures code == SQLITE_OK ==> bindings[..] == old(bindings[..])[index - 1 := slot] && errmsg == old(errmsg)
      ensures code != SQLITE_OK ==> bindings[..] == old(bindings[..]) && errmsg == errstr(code)
      ensures cursor == old(cursor) && lastCode == old(lastCode)
    {
      code := BindCode(cursor > 0, index, bindings.Length);
      if code == SQLITE_OK {
        bindings[index - 1] := slot;
      } else {
        errmsg := errstr(code);
      }
    }

    /** `bind(index:_:)`: dispatch each parameter variant to the matching engine bind,
        then check the code. Only slot `index` changes, and the statement is returned. */
    method BindIndex(index: int32, parameter: Option<SqlParameter>) returns (r: Result<Statement, DatabaseError>)
      requires Valid()
      requires BlobLengthFits(parameter)
      modifies this, bindings
      ensures Valid()
      ensures var code := BindCode(cursor > 0, index, bindings.Length);
        && r == Check(this, code, errstr, errmsg)
        && (code == SQLITE_OK ==> bindings[..] == old(bindings[..])[index - 1 := SlotFor(parameter)])
        && (code == SQLITE_OK ==> errmsg == old(errmsg))
        && (code != SQLITE_OK ==> bindings[..] == old(bindings[..]) && errmsg == errstr(code) && r.error.details.None?)
      ensures r.Success? <==> cursor == 0 && 1 <= index <= bindings.Length
      ensures cursor == old(cursor) && lastCode == old(lastCode)
    {
      var code;
      match parameter {
        case None => code := EngineBind(index, NullSlot);
        case Some(Null) => code := EngineBind(index, NullSlot);
        case Some(Int64(number)) => code := EngineBind(index, IntegerSlot(number));
        case Some(Double(double)) => code := EngineBind(index, FloatSlot(double));
        case Some(Text(text)) => code := EngineBind(index, TextSlot(UpToNul(text)));
        case Some(Blob(data)) => code := EngineBind(index, BlobSlot(data));
      }
      r := Check(this, code, errstr, errmsg);
    }

    /** `bind(name:_:)`: bind at the index the engine reports for `name` (0, a range
        error, when no parameter has that name). */
    method BindName(name: string, parameter: Option<SqlParameter>) returns (r: Result<Statement, DatabaseError>)
      requires Valid()
      requires BlobLengthFits(parameter)
      modifies this, bindings
      ensures Valid()
      ensures var index := ParameterIndex(parameterNames, name);
        && r == Check(this, BindCode(cursor > 0, index, bindings.Length), errstr, errmsg)
        && (r.Success? <==> cursor == 0 && index != 0)
        && (r.Success? ==> bindings[..] == old(bindings[..])[index - 1 := SlotFor(parameter)] && parameterNames[index - 1] == Some(name))
        && (r.Success? ==> errmsg == old(errmsg))
        && (r.Failure? ==> bindings[..] == old(bindings[..]) && errmsg == errstr(BindCode(cursor > 0, index, bindings.Length)))
      ensures cursor == old(cursor) && lastCode == old(lastCode)
    {
      r := BindIndex(ParameterIndex(parameterNames, name), parameter);
    }

    /** `array(decoding:)`: step until DONE, decoding every row; the first error aborts.
        The last step taken decides the code a following `reset()` reports, and the
        handle's message changes only when that step failed. */
    method ArrayDecoding<T, E>(decodeRow: seq<ColumnValue> -> Result<T, E>) returns (r: Result<seq<T>, ArrayError<E>>)
      requires Valid()
      modifies this
      ensures Valid()
      ensures (r, cursor) == Collect(script, old(cursor), errstr, decodeRow)
      ensures cursor > old(cursor) && lastCode == StepCode(StepAt(script, cursor - 1))
      ensures errmsg == if StepAt(script, cursor - 1).Failed? then StepAt(script, cursor - 1).errmsg else old(errmsg)
    {
      var values: seq<T> := [];
      ghost var start := cursor;
      PrependEmpty(Collect(script, start, errstr, decodeRow));
      while true
        invariant Valid()
        invariant Collect(script, start, errstr, decodeRow) == Prepend(values, Collect(script, cursor, errstr, decodeRow))
        invariant start <= cursor && errmsg == old(errmsg)
        decreases |script| - cursor
      {
        ghost var before := cursor;
        var stepped := Step();
        if stepped.Failure? {
          assert Collect(script, before, errstr, decodeRow) == (Failure(StepFailed(stepped.error)), cursor);
          return Failure(StepFailed(stepped.error));
        }
        if !stepped.value {
          assert Collect(script, before, errstr, decodeRow) == (Success([]), cursor);
          assert values + [] == values;
          r := Success(values);
          return;
        }
        var decoded := decodeRow(CurrentRow());
        if decoded.Failure? {
          assert Collect(script, before, errstr, decodeRow) == (Failure(DecodeFailed(decoded.error)), cursor);
          return Failure(DecodeFailed(decoded.error));
        }
        assert Collect(script, before, errstr, decodeRow) == Prepend([decoded.value], Collect(script, cursor, errstr, decodeRow));
        PrependTwice(values, [decoded.value], Collect(script, cursor, errstr, decodeRow));
        values := values + [decoded.value];
      }
    }
  }
}
