# SQLyra in Dafny

A model of the core of SQLyra, a Swift binding for SQLite. It covers:

- `SQLParameter`, the values a statement parameter can be bound to, with its
  constructors, literal initialisers and textual form (`sql_parameter.dfy`,
  with Swift's decimal rendering of integers in `decimal.dfy`);
- `DatabaseError` and `DatabaseHandle.check`, where a failing SQLite result code
  becomes a structured error (`database_error.dfy`);
- `PreparedStatement`: stepping, executing, resetting, clearing and binding
  parameters, reading columns by index and by name, and collecting all rows with
  `array(decoding:)` (`prepared_statement.dfy`);
- `RowDecoder`, which decodes a record from one row through per-column decoders
  (`row_decoder.dfy`);
- `StatementDecoder`, a decoder object over the statement's current row whose
  coding path grows while a nested value decodes. `statement_decoding.dfy` holds
  what it computes, both as the source has it and with the fix described under
  "Findings"; `statement_decoder.dfy` holds the class, which computes the source's
  version;
- `Scripts/markdown.swift`, the playground-to-markdown line machine
  (`markdown.dfy`).

The native SQLite engine is not part of the model. A `PreparedStatement` is a
class holding the engine state the binding reads and changes:

- the parameter slots, as an array;
- the parameter and result-column names;
- the engine's answers to successive steps, as a fixed script;
- a cursor into that script;
- the last step's code and the handle's current error message.

The engine's own rules are written out explicitly:

- `sqlite3_step` answers with the next entry of the script, and with DONE once the
  entries run out.
- `sqlite3_reset` returns the last step's error code.
- A `sqlite3_bind_*` call gives MISUSE once the statement has been stepped since
  its last reset, and RANGE for an index outside `1...count`.
- `sqlite3_bind_text` with length -1 stops at the first NUL character.
- `sqlite3_errstr` is a function parameter.
- Text read from a column goes through `String(cString:)`, so it ends at the
  first NUL character, as bound text does.
- The engine's typed views of a column (`sqlite3_column_int64`, `_text`, `_blob`,
  `_double`, and whether the column is NULL) are given values in `ColumnValue`.
  The engine's coercions between storage classes are therefore not modelled.

A Swift `Decodable` type is described by a `Shape`, which stands for its
`init(from:)`:

- `Bool`, `String` and the fixed-width integers;
- `Data` and arrays, which ask for an unkeyed container;
- `Optional`;
- a hand-written single-value wrapper;
- a record with a synthesized conformance.

The two decoders are specified as mutually recursive functions over the shape.
They are proved to produce only values of the requested shape. For `RowDecoder`,
and for `StatementDecoder` with the fix, the model proves where each error on a
record of flat fields is reported. The fix changes only error paths: with and
without it, `StatementDecoder` succeeds on the same rows with the same values.

On records whose fields contain no nested record, `RowDecoder` and
`StatementDecoder` succeed on exactly the same rows with the same values. They
differ on nested records: `RowDecoder` refuses them with `typeMismatch`, while
`StatementDecoder` reads the nested fields from the same row under a longer
coding path.

## Model

| member | source | states |
|---|---|---|
| Sqlite.ColumnAt | Sources/SQLyra/PreparedStatement.swift:253-273 | a column inside the row is read as it is; past the row, or with no row, the engine answers NULL, 0 and no text or blob |
| Decimal.NatToString | Sources/SQLyra/SQLParameter.swift:39 | the rendering of a natural number is nonempty, all digits, without a leading zero |
| Decimal.IntToString | Sources/SQLyra/SQLParameter.swift:39 | `Int64.description`: a minus sign exactly for negative numbers, then a nonempty run of digits without a leading zero |
| Decimal.NatRoundTrip | Sources/SQLyra/SQLParameter.swift:39 | reading the digits back gives the number |
| Decimal.IntRoundTrip | Sources/SQLyra/SQLParameter.swift:39 | `Int64.description` is nonempty and parses back to the number, sign included |
| SqlParameters.Bool | Sources/SQLyra/SQLParameter.swift:23-25 | `bool(v)` is an `.int64`, equal to 1 exactly when `v` and to 0 exactly when not `v` |
| SqlParameters.Integer | Sources/SQLyra/SQLParameter.swift:28-30 | `integer(v)` is `.int64(v)` for every value representable in 64 bits |
| SqlParameters.FromNilLiteral | Sources/SQLyra/SQLParameter.swift:49-53 | `nil` is `.null` |
| SqlParameters.FromBooleanLiteral | Sources/SQLyra/SQLParameter.swift:55-59 | a Boolean literal is `bool(_)` of it |
| SqlParameters.FromIntegerLiteral | Sources/SQLyra/SQLParameter.swift:61-65 | an integer literal is `.int64` of it |
| SqlParameters.FromFloatLiteral | Sources/SQLyra/SQLParameter.swift:67-71 | a float literal is `.double` of it |
| SqlParameters.FromStringLiteral | Sources/SQLyra/SQLParameter.swift:73-77 | a string literal is `.text` of it |
| SqlParameters.Description | Sources/SQLyra/SQLParameter.swift:36-44 | `.null` prints "null", `.text(s)` prints `s` unchanged, `.double` prints Swift's rendering of the double |
| SqlParameters.Int64DescriptionRoundTrip | Sources/SQLyra/SQLParameter.swift:39 | the description of `.int64(n)` is a decimal rendering that parses back to `n` |
| SqlParameters.BlobDescription | Sources/SQLyra/SQLParameter.swift:42 | the description of `.blob(d)` ends in " bytes" and what precedes it parses to the byte count |
| SqlParameters.BoolDescription | Sources/SQLyra/SQLParameter.swift:23-25 | `bool(true)` prints "1" and `bool(false)` prints "0" |
| DatabaseErrors.Make | Sources/SQLyra/DatabaseError.swift:21-25 | the public initialiser stores code, message and details unchanged |
| DatabaseErrors.FromHandle | Sources/SQLyra/DatabaseError.swift:27-32 | the code is kept; the message is `errstr(code)`; details are absent exactly when the handle's message is absent or equals the message, and are the handle's message otherwise |
| DatabaseErrors.ErrorCode | Sources/SQLyra/DatabaseError.swift:40 | `errorCode` is the code, widened and within the 32-bit range |
| DatabaseErrors.ErrorUserInfo | Sources/SQLyra/DatabaseError.swift:42-47 | the description key is present exactly when there is a message and holds it; the failure-reason key is present exactly when there are details and holds them; there are no other keys |
| DatabaseErrors.Check | Sources/SQLyra/DatabaseError.swift:58-63 | succeeds with the handle itself exactly when the code is the expected one (by default OK); otherwise fails with the error built from that code and the handle |
| PreparedStatements.StepOutcome | Sources/SQLyra/PreparedStatement.swift:35-44 | DONE gives `false`, ROW gives `true`, any other code fails with an error carrying that code |
| PreparedStatements.ResetCode | Sources/SQLyra/PreparedStatement.swift:54-56 | reset reports OK, unless the last step failed, and then it reports that step's code |
| PreparedStatements.BindCode | Sources/SQLyra/PreparedStatement.swift:182-199 | a bind succeeds exactly when the statement has not been stepped and the index is in `1...count`; otherwise the code is MISUSE or RANGE |
| Sqlite.UpToNul | Sources/SQLyra/PreparedStatement.swift:192 | the text a C string carries (bound with length -1, or read back by `String(cString:)`) is the longest prefix of the string without a NUL |
| PreparedStatements.SlotFor | Sources/SQLyra/PreparedStatement.swift:184-197 | `nil` binds NULL; each variant binds the engine value of its own kind with the same content; text is bound exactly up to its first NUL |
| PreparedStatements.TextWithoutNulBindsUnchanged | Sources/SQLyra/PreparedStatement.swift:191-192 | text without NUL characters is bound exactly |
| PreparedStatements.ColumnIndexByName | Sources/SQLyra/PreparedStatement.swift:240-246 | with distinct names, every named column maps to its own index, and every entry is a named column's index |
| PreparedStatements.ParameterIndex | Sources/SQLyra/PreparedStatement.swift:166-168 | 0 exactly when no parameter has the name; otherwise the 1-based index of the first parameter with that name |
| PreparedStatements.CollectSucceeds | Sources/SQLyra/PreparedStatement.swift:71-78 | `array(decoding:)` succeeds exactly when every row decodes and the statement then finishes; the result has one value per row, in step order (`[]` for no rows) |
| PreparedStatements.CollectFirstFailure | Sources/SQLyra/PreparedStatement.swift:71-78 | a decoding error is that of the first row that fails to decode; a step error comes only after all earlier rows decoded, and is the error of that step |
| PreparedStatements.Statement.constructor | Sources/SQLyra/PreparedStatement.swift:15-17 | a new statement has every slot NULL and has not been stepped |
| PreparedStatements.Statement.CurrentRow | Sources/SQLyra/PreparedStatement.swift:253-273 | the columns of the last step's row, or none when the last step did not produce a row |
| PreparedStatements.Statement.StringAt | Sources/SQLyra/PreparedStatement.swift:86-88 | the column's text up to its first NUL, present exactly when the engine has text for it; absent outside the row |
| PreparedStatements.Statement.Int64At | Sources/SQLyra/PreparedStatement.swift:96-98 | the column's integer, 0 outside the row |
| PreparedStatements.Statement.DoubleAt | Sources/SQLyra/PreparedStatement.swift:106-108 | the column's double inside the row, and 0.0 outside it |
| PreparedStatements.Statement.BlobAt | Sources/SQLyra/PreparedStatement.swift:116-120 | the column's blob, absent outside the row |
| PreparedStatements.Statement.NullAt | Sources/SQLyra/PreparedStatement.swift:124-126 | whether the column is NULL; true outside the row |
| PreparedStatements.Statement.StringFor | Sources/SQLyra/PreparedStatement.swift:90-92 | absent for a name that is not a column; otherwise the text of the column with that name, up to its first NUL |
| PreparedStatements.Statement.Int64For | Sources/SQLyra/PreparedStatement.swift:100-102 | absent for a name that is not a column; otherwise the integer of the column with that name |
| PreparedStatements.Statement.DoubleFor | Sources/SQLyra/PreparedStatement.swift:110-112 | absent for a name that is not a column; otherwise the double of the column with that name |
| PreparedStatements.Statement.NullFor | Sources/SQLyra/PreparedStatement.swift:128-130 | true for a name that is not a column; otherwise whether the column with that name is NULL |
| PreparedStatements.Statement.EngineStep | Sources/SQLyra/PreparedStatement.swift:36 | one engine step: the next answer's code, the cursor advanced by one, the handle's message updated on failure |
| PreparedStatements.Statement.Step | Sources/SQLyra/PreparedStatement.swift:35-44 | the outcome is the step mapping applied to the engine's next answer, and exactly one step is taken |
| PreparedStatements.Statement.Execute | Sources/SQLyra/PreparedStatement.swift:28-30 | succeeds, returning the statement, exactly when the engine's next answer is DONE; a row fails too |
| PreparedStatements.Statement.Reset | Sources/SQLyra/PreparedStatement.swift:54-56 | the cursor goes back to the start, every bound value stays, and the last step's error is reported (the statement's invariant keeps the last code equal to the last step's) |
| PreparedStatements.Statement.ClearBindings | Sources/SQLyra/PreparedStatement.swift:65-67 | every parameter slot becomes NULL and the statement is returned |
| PreparedStatements.Statement.EngineBind | Sources/SQLyra/PreparedStatement.swift:186-195 | on success exactly slot `index` changes; on failure nothing changes and the handle's message is the code's text |
| PreparedStatements.Statement.BindIndex | Sources/SQLyra/PreparedStatement.swift:182-199 | on success only slot `index` changes, to the value of the parameter's kind, and the handle's message stays; on failure no slot changes and the handle's message is the code's text; it succeeds exactly when unstepped with an index in range; a blob must fit the `Int32(data.count)` conversion, which traps otherwise |
| PreparedStatements.Statement.BindName | Sources/SQLyra/PreparedStatement.swift:177-179 | binds at the first parameter with that name; the result is the check of the bind code at that index, so an unknown name gives the RANGE error and a stepped statement the MISUSE error; on failure no slot changes and the code's text becomes the handle's message |
| PreparedStatements.Statement.ArrayDecoding | Sources/SQLyra/PreparedStatement.swift:71-78 | the loop's result and final cursor are those of the row-collecting specification (see the two lemmas above); the last code is that of the last step taken, and the handle's message changes only when that step failed |
| RowDecoders.CodingPath | Sources/SQLyra/RowDecoder.swift:161 | the row decoder's path is empty and a column decoder's is its key |
| RowDecoders.KeyedContainer | Sources/SQLyra/RowDecoder.swift:163-166 | only the row decoder has a keyed container; a column decoder fails with `typeMismatch` at its own path |
| RowDecoders.SingleValueContainer | Sources/SQLyra/RowDecoder.swift:37-40 | the row decoder refuses with `typeMismatch`, empty path and empty description; a column decoder is its own single-value container for its key |
| RowDecoders.UnkeyedContainer | Sources/SQLyra/RowDecoder.swift:32-35 | always `typeMismatch` at the decoder's own path with empty description |
| RowDecoders.Contains | Sources/SQLyra/RowDecoder.swift:49 | true exactly when the key names a column |
| RowDecoders.ColumnFor | Sources/SQLyra/RowDecoder.swift:138-145 | the column the key names; otherwise `keyNotFound(key)` at path `[key]` with "Column index not found for key: <key>" |
| RowDecoders.Null | Sources/SQLyra/RowDecoder.swift:83-85 | true exactly when the key is unknown or the column is NULL |
| RowDecoders.Integer | Sources/SQLyra/RowDecoder.swift:93-101 | succeeds exactly when the key is known and the 64-bit value fits the target type, and then is that value; otherwise `dataCorrupted` at `[key]` naming the column and the type |
| RowDecoders.Bool | Sources/SQLyra/RowDecoder.swift:88-90 | succeeds exactly when the key is known, with `int64 != 0` |
| RowDecoders.String | Sources/SQLyra/RowDecoder.swift:115-121 | the column's text up to its first NUL; `keyNotFound` for an unknown key; `valueNotFound(String)` at `[key]` when the column has no text |
| RowDecoders.Blob | Sources/SQLyra/RowDecoder.swift:124-132 | the column's blob, read without a column decoder; `keyNotFound` for an unknown key; `valueNotFound(Data)` at `[key]` when the column has no blob |
| RowDecoders.DecodePrimitive | Sources/SQLyra/RowDecoder.swift:51-64 | a primitive read yields a value of the requested type, and its errors sit at `[key]` |
| RowDecoders.Decode | Sources/SQLyra/RowDecoder.swift:14-17 | anything but a record fails at the top with `typeMismatch` and an empty path |
| RowDecoders.NumberNotFit | Sources/SQLyra/RowDecoder.swift:96 | the message quotes the column as it prints itself between "Parsed SQL integer <" and "> does not fit in <T>." |
| RowDecoders.InitFrom | Sources/SQLyra/RowDecoder.swift:28-40 | `init(from:)` given the row decoder or a column decoder: a successful decode has the requested shape |
| RowDecoders.DecodeFields | Sources/SQLyra/RowDecoder.swift:44-67 | a record's decoded fields are one per field, each of its field's shape |
| RowDecoders.FieldDecode | Sources/SQLyra/RowDecoder.swift:50-67 | `decodeIfPresent` or `decode` for one field: a decoded field has the field's shape |
| RowDecoders.DecodeValue | Sources/SQLyra/RowDecoder.swift:154-195 | the keyed container's `decode(_:forKey:)` and a column decoder's `decode(_:)`: a value of the requested shape |
| RowDecoders.Generic | Sources/SQLyra/RowDecoder.swift:124-135 | `decode<T>(_:forKey:)`: a value decoded through a column decoder or as a blob has the requested shape |
| RowDecoders.ColumnLevelErrorPath | Sources/SQLyra/RowDecoder.swift:154-195 | every error raised inside a column decoder has exactly `[key]` as its path |
| RowDecoders.DecodeValueErrorPath | Sources/SQLyra/RowDecoder.swift:124-135 | every error decoding a value for a key has exactly `[key]` as its path |
| RowDecoders.FieldErrorPath | Sources/SQLyra/RowDecoder.swift:65-67 | a field's errors have exactly the field's key as their path |
| RowDecoders.DecodeFieldsErrorPath | Sources/SQLyra/RowDecoder.swift:44-67 | a record's errors have one of its field keys as their whole path |
| RowDecoders.DecodeErrorPath | Sources/SQLyra/RowDecoder.swift:14-17 | a row decodes only into a record, with the requested shape; a record's errors point at exactly one of its fields |
| StatementDecoding.Ctx | Sources/SQLyra/StatementDecoder.swift:105-111 | the path is the decoder's path plus the key, or the decoder's path alone when single |
| StatementDecoding.NumberNotFit | Sources/SQLyra/StatementDecoder.swift:114-116 | the message quotes the value in decimal, which reads back as the value, between "Parsed SQL number <" and "> does not fit in <T>." |
| StatementDecoding.ColumnIndex | Sources/SQLyra/StatementDecoder.swift:98-103 | the column index for a known key; otherwise `keyNotFound(key)` with "Column index not found for key: <key>" |
| StatementDecoding.Null | Sources/SQLyra/StatementDecoder.swift:35-37 | true exactly when the key is unknown or the column is NULL |
| StatementDecoding.Contains | Sources/SQLyra/StatementDecoder.swift:174 | true exactly when the key names a column |
| StatementDecoding.Integer | Sources/SQLyra/StatementDecoder.swift:65-72 | succeeds exactly when the key is known and the value fits the type, and then is that value; otherwise `dataCorrupted` with "Parsed SQL number <v> does not fit in <T>." |
| StatementDecoding.Bool | Sources/SQLyra/StatementDecoder.swift:40-42 | succeeds exactly when the key is known, with `int64 != 0` |
| StatementDecoding.String | Sources/SQLyra/StatementDecoder.swift:45-51 | the column's text through `columnString(at:)`, so up to its first NUL; `valueNotFound(String)` when it has none |
| StatementDecoding.Blob | Sources/SQLyra/StatementDecoder.swift:80-87 | the column's blob, read without touching the coding path; `valueNotFound(Data)` when it has none |
| StatementDecoding.Read | Sources/SQLyra/StatementDecoder.swift:176-189 | a primitive read yields a value of the requested type, and its errors sit at the context path |
| StatementDecoding.SingleValueReadAsWritten | Sources/SQLyra/StatementDecoder.swift:148-162 | as written, every single-value reader but `Bool` reads with `single: true`; `Bool` reads with `single: false` |
| StatementDecoding.SingleValueRead | Sources/SQLyra/StatementDecoder.swift:150-162 | corrected single-value reads: errors carry the decoder's path unchanged, and values have the requested type |
| StatementDecoding.SingleValueBoolRepeatsKey | Sources/SQLyra/StatementDecoder.swift:149 | for a missing key `k`, the source's single-value `Bool` read reports path `[k, k]`, the corrected one `[k]` |
| StatementDecoding.SingleValuePrimitive | Sources/SQLyra/StatementDecoder.swift:149-162 | the single-value primitive readers: the source's when `asWritten`, the corrected ones otherwise |
| StatementDecoding.SingleValueContainer | Sources/SQLyra/StatementDecoder.swift:133-139 | fails with `dataCorrupted` "key not found" exactly when the path is empty; otherwise its key is the path's last |
| StatementDecoding.UnkeyedContainer | Sources/SQLyra/StatementDecoder.swift:125-131 | always `dataCorrupted` at the current path, "`unkeyedContainer()` not supported" |
| StatementDecoding.Decode | Sources/SQLyra/StatementDecoder.swift:12-18 | at the top, primitives, optionals and wrappers fail with "key not found", and data and arrays fail as unsupported, as written and with the fix |
| StatementDecoding.InitFromSound | Sources/SQLyra/StatementDecoder.swift:120-139 | a successful decode has the requested shape; every error's path begins with the decoder's path |
| StatementDecoding.DecodeFieldsSound | Sources/SQLyra/StatementDecoder.swift:169-192 | decoded fields are one per field, each of its field's shape; errors extend the path |
| StatementDecoding.FieldDecodeSound | Sources/SQLyra/StatementDecoder.swift:174-192 | a decoded field has its shape; errors extend the path |
| StatementDecoding.KeyedDecodeSound | Sources/SQLyra/StatementDecoder.swift:176-192 | a keyed decode has the requested shape; errors extend the path |
| StatementDecoding.SingleValueDecodeSound | Sources/SQLyra/StatementDecoder.swift:148-163 | a single-value decode has the requested shape; errors extend the path |
| StatementDecoding.DecodeForKeySound | Sources/SQLyra/StatementDecoder.swift:74-96 | decoding for a key, pushed or not, has the requested shape; errors extend the path |
| StatementDecoding.FixInitFrom | Sources/SQLyra/StatementDecoder.swift:120-139 | with and without the fix, a decode at any path succeeds alike, with the same value |
| StatementDecoding.FixDecodeFields | Sources/SQLyra/StatementDecoder.swift:169-192 | with and without the fix, a record's fields decode alike |
| StatementDecoding.FixFieldDecode | Sources/SQLyra/StatementDecoder.swift:174-192 | with and without the fix, a field decodes alike |
| StatementDecoding.FixKeyedDecode | Sources/SQLyra/StatementDecoder.swift:176-192 | with and without the fix, a keyed decode succeeds alike |
| StatementDecoding.FixSingleValueDecode | Sources/SQLyra/StatementDecoder.swift:148-163 | with and without the fix, a single-value decode succeeds alike |
| StatementDecoding.FixDecodeForKey | Sources/SQLyra/StatementDecoder.swift:74-96 | with and without the fix, decoding for a key succeeds alike |
| StatementDecoding.FixChangesOnlyErrors | Sources/SQLyra/StatementDecoder.swift:149 | the fix changes error paths only: `decode(_:from:)` succeeds on the same rows with the same values either way |
| StatementDecoding.BoolWrapperErrorPath | Sources/SQLyra/StatementDecoder.swift:149 | a record with a field `k` wrapping a `Bool`, decoded with no column `k`: `keyNotFound` at `[k, k]` as written, at `[k]` with the fix |
| StatementDecoding.FlatInitFromErrorPath | Sources/SQLyra/StatementDecoder.swift:144-163 | with the fix, below a key, a value with no record inside fails only at exactly the decoder's path |
| StatementDecoding.FlatDecodeForKeyErrorPath | Sources/SQLyra/StatementDecoder.swift:74-96 | with the fix, a single-value decode for the path's own key fails only at exactly that path |
| StatementDecoding.FlatKeyedDecodeErrorPath | Sources/SQLyra/StatementDecoder.swift:176-192 | with the fix, at the root, a keyed decode of a value with no record inside fails only at `[key]` |
| StatementDecoding.FlatFieldsErrorPath | Sources/SQLyra/StatementDecoder.swift:169-192 | with the fix, a record of flat fields fails, if at all, at exactly one field's key |
| StatementDecoding.FlatRecordErrorPath | Sources/SQLyra/StatementDecoder.swift:12-18 | with the fix, decoding a record of flat fields fails, if at all, at exactly one of its keys |
| StatementDecoding.AgreePrimitive | Sources/SQLyra/StatementDecoder.swift:176-189 | primitive reads agree with the row decoder's on success and value |
| StatementDecoding.AgreeBlob | Sources/SQLyra/StatementDecoder.swift:80-87 | blob reads agree with the row decoder's |
| StatementDecoding.AgreeInitFrom | Sources/SQLyra/StatementDecoder.swift:144-163 | below a key, both decoders agree on flat values |
| StatementDecoding.AgreeDecodeValue | Sources/SQLyra/StatementDecoder.swift:163 | single-value decodes agree with the row decoder's for flat values |
| StatementDecoding.AgreeKeyed | Sources/SQLyra/StatementDecoder.swift:176-192 | keyed decodes at the root agree with the row decoder's for flat values |
| StatementDecoding.AgreeFields | Sources/SQLyra/StatementDecoder.swift:169-192 | the fields of a flat record decode alike in both decoders |
| StatementDecoding.DecodersAgree | Sources/SQLyra/StatementDecoder.swift:12-18 | on a record of flat fields, `StatementDecoder`, as written or with the fix, succeeds exactly when `RowDecoder` does, with the same value |
| StatementDecoders.StatementDecoder.constructor | Sources/SQLyra/StatementDecoder.swift:27-32 | the decoder captures the statement's column map and starts at the empty path |
| StatementDecoders.StatementDecoder.InitFrom | Sources/SQLyra/StatementDecoder.swift:120-139 | computes the decode specification as written (line 149's `Bool` read included) at the current path, and leaves the path as it found it |
| StatementDecoders.StatementDecoder.DecodeFields | Sources/SQLyra/StatementDecoder.swift:169-192 | decodes the fields in order, stopping at the first error, as specified, with the path unchanged |
| StatementDecoders.StatementDecoder.FieldDecode | Sources/SQLyra/StatementDecoder.swift:174-192 | `decodeIfPresent` or `decode` for one field, as specified, with the path unchanged |
| StatementDecoders.StatementDecoder.KeyedDecode | Sources/SQLyra/StatementDecoder.swift:176-192 | the keyed container's decode, as specified, with the path unchanged |
| StatementDecoders.StatementDecoder.SingleValueDecode | Sources/SQLyra/StatementDecoder.swift:148-163 | the single-value container's decode as written, `Bool` through `bool(forKey:)`, with the path unchanged |
| StatementDecoders.StatementDecoder.DecodeForKey | Sources/SQLyra/StatementDecoder.swift:74-96 | pushes the key unless single or `Data`, decodes, and restores the path on success and on error |
| StatementDecoders.RowDecoding | Sources/SQLyra/PreparedStatement.swift:80-82 | the per-row decode `array(decoding:)` uses: a success is always a value of the requested shape |
| StatementDecoders.DecodeSound | Sources/SQLyra/PreparedStatement.swift:80-82 | decoding any row at the root yields only values of the requested shape |
| StatementDecoders.Decode | Sources/SQLyra/StatementDecoder.swift:12-18 | a fresh decoder over the statement computes the decode specification as written at the empty path, which is the per-row decode `array(decoding:)` applies |
| StatementDecoders.DecodeArray | Sources/SQLyra/PreparedStatement.swift:71-82 | `array(decoding:)` with the statement decoder: its result and final cursor are those of the row-collecting specification; the last code and the handle's message are those the last step left |
| Markdown.DropLeadingWhitespace | Scripts/markdown.swift:25 | the result is a suffix of the line, everything dropped is whitespace, and the result does not start with whitespace |
| Markdown.StepLine | Scripts/markdown.swift:16-28 | a line starting with the comment opener prints a closing fence exactly when in code and switches to comment; otherwise a line ending with the closer prints the swift fence and switches to code; other lines print once, stripped of leading whitespace in a comment and unchanged otherwise |
| Markdown.Convert | Scripts/markdown.swift:13-32 | the loop and final fence compute the conversion specification |
| Markdown.LastMarker | Scripts/markdown.swift:16-23 | the index of a marker line after which no line is a marker, or -1 when no line is one |
| Markdown.StateFollowsLastMarker | Scripts/markdown.swift:15-29 | the state after any input is set by its last marker line alone (comment after an opener, code after a closer), and is unknown when there is none |
| Markdown.TranscriptLength | Scripts/markdown.swift:15-29 | the loop prints at least one line per ordinary line and at most one per input line |
| Markdown.ClosingFence | Scripts/markdown.swift:30-32 | the output is the loop's output followed by a closing fence exactly when the last marker line closed a comment |
| Markdown.PlainInputUnchanged | Scripts/markdown.swift:26-27 | input without marker lines is copied unchanged, with no fence |

## Left out

- Sources/SQLyra/Database.swift is not part of this model. Opening, executing and preparing are direct engine calls.
- Sources/SQLyra/DataFrame.swift is not part of this model: it wraps Apple's TabularData framework.
- Scripts/gh-format.swift is not part of this model: its behaviour is Swift regex backtracking.
- Floating point: `floating(_:forKey:)` in both decoders and the `Double`/`Float` shapes are not modelled. A double is its bit pattern, so `SQLParameter` equality on `.double` compares bits, not IEEE values.
- SqlParameters.Description: the text of a `.double` is a parameter, because Swift's shortest round-trip rendering of doubles is not modelled.
- The engine's coercions between storage classes are not modelled: a column's integer, text and blob views are independent given values.
- The engine's answers to steps do not depend on the bound values.
- Memory and handle management is not modelled: finalizing in `deinit`, `SQLITE_TRANSIENT` and the database handle pointer.
- The SQL text accessors are engine-produced strings and are not modelled: `sql`, `normalizedSQL`, `expandedSQL`, `description` and `debugDescription`.
- `parameterCount`, `parameterName(at:)`, `columnCount` and `columnName(at:)` are the statement's `parameterNames` and `columnNames` fields. They have no members of their own.
- The single-kind bind overloads are not modelled separately: `bind(index:int64:)`, `bind(index:double:)`, `bind(name:string:)`, `bind(index:string:)` and `bind(index:data:)`. Each makes the same engine call as the matching arm of `bind(index:_:)`.
- The `columnString(at:)`, `columnInt64(at:)`, `columnDouble(at:)`, `columnBlob(at:)` and `columnNull(at:)` readers are the same engine calls as the `string(at:)` family. `Statement.StringAt` and its siblings model both.
- PreparedStatements.BindCode: the engine's length limit is not modelled. SQLite answers `SQLITE_TOOBIG` for text or a blob longer than its limit (`SQLITE_MAX_LENGTH`, a compile-time and per-connection setting outside this model), and the model reports success there.
- PreparedStatements.Statement.BindIndex: the `Int32(data.count)` trap in the blob arm is a precondition (`BlobLengthFits`) rather than a modelled crash; `BindName` inherits it.
- PreparedStatements.Statement.BindIndex: the `switch` in `bind(index:_:)` has no arm for `.some(.null)`, and the model binds NULL for it. An empty `Data` is bound as an empty blob, whereas SQLite binds NULL when Foundation hands it a null pointer.
- `userInfo` and `allKeys` are not modelled: the decoders never read them.
- The `fatalError()` stubs are not modelled: `superDecoder`, `nestedContainer` and `nestedUnkeyedContainer`.
- `PreparedStatement.Row` and its column type are not part of this model. A row column's `string` is taken to read the engine's text through `String(cString:)`, as `columnString(at:)` does.
- Swift compares strings by grapheme cluster, and the model compares Unicode scalars. This affects `hasPrefix`, `hasSuffix` and `drop(while:)` in the markdown script and key lookups in the decoders. `readLine()` splitting the input into lines is not modelled: the script receives the lines.
- `Int` and `UInt` are taken to be 64 bits wide.
- Some tests expect behaviour that the source does not produce, and the model follows the source. One test expects the message "Parsed SQL int64 …"; another expects `valueNotFound` for a NULL `Int8`.

## Findings

| source | as written | input that shows it | evidently intended | confidence | as-written member | corrected member |
|---|---|---|---|---|---|---|
| Sources/SQLyra/StatementDecoder.swift:149 | The single-value container's `decode(Bool.self)` calls `bool(forKey:)`, whose `single` flag defaults to `false`. Its error context therefore appends the key to a path that already ends with it. | A record with a field `flag` of a wrapper type that decodes a `Bool` from a single-value container, decoded from a statement with no column `flag`: the `keyNotFound` error has path `[flag, flag]` | Path `[flag]`, as every other single-value reader reports it (lines 150-162 pass `single: true`) | not executed | StatementDecoding.SingleValueReadAsWritten, used by the class and shown at decode level by StatementDecoding.BoolWrapperErrorPath | StatementDecoding.SingleValueRead, selected by `asWritten == false`, with StatementDecoding.FlatRecordErrorPath and StatementDecoding.FixChangesOnlyErrors |
