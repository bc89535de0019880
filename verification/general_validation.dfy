/**
 * The value-based cell validators: each scans one column of a sheet and reports the rows whose
 * value is not acceptable, or that every row is acceptable.
 */
module GeneralValidationFunctions {
  import opened Outcomes

  /**
   * What a cell of a sheet read into pandas can hold. `IntVal` is a Python int, `BoolVal` a
   * Python bool (a subclass of int), `NumpyIntVal` a numpy integer (not an instance of int),
   * `FloatVal` a float or numpy float, `FloatNan` a NaN float, `NoneVal` a missing value and
   * `OtherVal` anything else (dates, times, ...).
   */
  datatype Value =
    | IntVal(i: int)
    | BoolVal(b: bool)
    | NumpyIntVal(n: int)
    | FloatVal(x: real)
    | FloatNan
    | StrVal(s: string)
    | NoneVal
    | OtherVal

  /** `pd.isnull`. */
  predicate IsNull(v: Value) {
    v.FloatNan? || v.NoneVal?
  }

  /** `isinstance(v, (float, int))`. */
  predicate IsFloatOrInt(v: Value) {
    v.IntVal? || v.BoolVal? || v.FloatVal? || v.FloatNan?
  }

  /** `isinstance(v, int)`. */
  predicate IsInt(v: Value) {
    v.IntVal? || v.BoolVal?
  }

  /** `v == n` for a number `n`: numbers compare by value, NaN and non-numbers never equal. */
  predicate EqualsNumber(v: Value, n: real) {
    match v
    case IntVal(i) => i as real == n
    case BoolVal(b) => (if b then 1.0 else 0.0) == n
    case NumpyIntVal(k) => k as real == n
    case FloatVal(x) => x == n
    case _ => false
  }

  /** `v == s` for a string `s`. */
  predicate EqualsString(v: Value, s: string) {
    v.StrVal? && v.s == s
  }

  /** The outcome of one validator: every row acceptable (`True` in the source), or the flagged rows. */
  datatype Verdict = AllValid | InvalidRows(rows: seq<int>)

  /** The `(column_name, verdict)` pair a validator returns. */
  datatype Report = Report(column: string, verdict: Verdict)

  /** The columns of one sheet; rows are numbered 0, 1, ... */
  type Sheet = map<string, seq<Value>>

  /** Row numbers (plus `offset`) of the first `n` cells that `bad` flags, in scan order. */
  function FlaggedRows(col: seq<Value>, bad: Value -> bool, offset: int, n: nat): seq<int>
    requires n <= |col|
    decreases n
  {
    if n == 0 then []
    else FlaggedRows(col, bad, offset, n - 1) + (if bad(col[n - 1]) then [n - 1 + offset] else [])
  }

  /** `True` when nothing was flagged, the list otherwise. */
  function VerdictOf(rows: seq<int>): (v: Verdict)
    ensures v.AllValid? <==> rows == []
    ensures v.InvalidRows? ==> v.rows == rows
  {
    if |rows| > 0 then InvalidRows(rows) else AllValid
  }

  /** One validator applied to `column` of `sheet`; a missing column raises KeyError. */
  function Validate(sheet: Sheet, column: string, bad: Value -> bool, offset: int): Result<Report> {
    if column !in sheet then Err(KeyError(column))
    else Ok(Report(column, VerdictOf(FlaggedRows(sheet[column], bad, offset, |sheet[column]|))))
  }

  /** The scan all validators share: visit the rows in order, appending `index + offset` for each flagged one. */
  method CollectInvalidRows(col: seq<Value>, bad: Value -> bool, offset: int) returns (invalidRows: seq<int>)
    ensures invalidRows == FlaggedRows(col, bad, offset, |col|)
  {
    invalidRows := [];
    for index := 0 to |col|
      invariant invalidRows == FlaggedRows(col, bad, offset, index)
    {
      if bad(col[index]) {
        invalidRows := invalidRows + [index + offset];
      }
    }
  }

  /**
   * A row is reported exactly when `bad` flags its value; the reported numbers are the row
   * numbers shifted by `offset`, each reported once and in ascending order.
   */
  lemma {:induction false} FlaggedRowsSpec(col: seq<Value>, bad: Value -> bool, offset: int, n: nat)
    requires n <= |col|
    ensures forall i | 0 <= i < n :: (i + offset in FlaggedRows(col, bad, offset, n) <==> bad(col[i]))
    ensures forall x | x in FlaggedRows(col, bad, offset, n) :: offset <= x < n + offset
    ensures forall a, b | 0 <= a < b < |FlaggedRows(col, bad, offset, n)| ::
      FlaggedRows(col, bad, offset, n)[a] < FlaggedRows(col, bad, offset, n)[b]
    decreases n
  {
    if n > 0 {
      FlaggedRowsSpec(col, bad, offset, n - 1);
      var prev := FlaggedRows(col, bad, offset, n - 1);
      assert forall a | 0 <= a < |prev| :: prev[a] in prev;
    }
  }

  /** A validator answers `True` exactly when no row of the column is flagged. */
  lemma AllValidIff(sheet: Sheet, column: string, bad: Value -> bool, offset: int)
    requires column in sheet
    ensures Validate(sheet, column, bad, offset).Ok?
    ensures Validate(sheet, column, bad, offset).value.verdict.AllValid?
        <==> forall i | 0 <= i < |sheet[column]| :: !bad(sheet[column][i])
  {
    var col := sheet[column];
    FlaggedRowsSpec(col, bad, offset, |col|);
    if FlaggedRows(col, bad, offset, |col|) != [] {
      var x := FlaggedRows(col, bad, offset, |col|)[0];
      assert x in FlaggedRows(col, bad, offset, |col|);
      assert bad(col[x - offset]);
    }
  }

  // ---------------------------------------------------------------------------------------------
  // The five validators. Each flags a row by the predicate named after it.

  /** `validate_if_there_is_a_float_or_integer_in_cell`: flagged when not an int or float, or null. */
  predicate NotFloatOrInteger(v: Value) {
    !IsFloatOrInt(v) || IsNull(v)
  }

  /** `validate_if_there_is_no_specific_float_or_integer_in_cell`: flagged when not equal to `n`, or null. */
  function NotSpecificNumber(n: real): Value -> bool {
    v => !EqualsNumber(v, n) || IsNull(v)
  }

  /** `validate_if_there_is_a_string`: flagged when not an int, or null (the check is for int, not str). */
  predicate NotString(v: Value) {
    !IsInt(v) || IsNull(v)
  }

  /** `validate_if_there_is_a_specific_string`: flagged when null or equal to `s`. */
  function IsSpecificString(s: string): Value -> bool {
    v => IsNull(v) || EqualsString(v, s)
  }

  /** `validate_if_there_is_in_cell_one_of_the_specific_strings`: flagged when null or not in `allowed`. */
  function NotOneOf(allowed: seq<string>): Value -> bool {
    v => IsNull(v) || !(v.StrVal? && v.s in allowed)
  }

  method ValidateFloatOrInteger(sheet: Sheet, column: string, offset: int) returns (r: Result<Report>)
    ensures r == Validate(sheet, column, NotFloatOrInteger, offset)
  {
    if column !in sheet {
      return Err(KeyError(column));
    }
    var invalidRows := CollectInvalidRows(sheet[column], NotFloatOrInteger, offset);
    r := Ok(Report(column, VerdictOf(invalidRows)));
  }

  method ValidateNoSpecificNumber(sheet: Sheet, column: string, n: real, offset: int) returns (r: Result<Report>)
    ensures r == Validate(sheet, column, NotSpecificNumber(n), offset)
  {
    if column !in sheet {
      return Err(KeyError(column));
    }
    var invalidRows := CollectInvalidRows(sheet[column], NotSpecificNumber(n), offset);
    r := Ok(Report(column, VerdictOf(invalidRows)));
  }

  method ValidateString(sheet: Sheet, column: string, offset: int) returns (r: Result<Report>)
    ensures r == Validate(sheet, column, NotString, offset)
  {
    if column !in sheet {
      return Err(KeyError(column));
    }
    var invalidRows := CollectInvalidRows(sheet[column], NotString, offset);
    r := Ok(Report(column, VerdictOf(invalidRows)));
  }

  method ValidateSpecificString(sheet: Sheet, column: string, s: string, offset: int) returns (r: Result<Report>)
    ensures r == Validate(sheet, column, IsSpecificString(s), offset)
  {
    if column !in sheet {
      return Err(KeyError(column));
    }
    var invalidRows := CollectInvalidRows(sheet[column], IsSpecificString(s), offset);
    r := Ok(Report(column, VerdictOf(invalidRows)));
  }

  method ValidateOneOfStrings(sheet: Sheet, column: string, allowed: seq<string>, offset: int) returns (r: Result<Report>)
    ensures r == Validate(sheet, column, NotOneOf(allowed), offset)
  {
    if column !in sheet {
      return Err(KeyError(column));
    }
    var invalidRows := CollectInvalidRows(sheet[column], NotOneOf(allowed), offset);
    r := Ok(Report(column, VerdictOf(invalidRows)));
  }

  /**
   * What an unflagged row holds, validator by validator: a defined int or float; a value equal
   * to the number; an int; a defined value other than the string; one of the allowed strings.
   */
  lemma UnflaggedValues(v: Value, n: real, s: string, allowed: seq<string>)
    ensures !NotFloatOrInteger(v) ==> (v.IntVal? || v.BoolVal? || v.FloatVal?)
    ensures !NotSpecificNumber(n)(v) ==> EqualsNumber(v, n)
    ensures !NotString(v) ==> IsInt(v)
    ensures !IsSpecificString(s)(v) ==> !IsNull(v) && v != StrVal(s)
    ensures !NotOneOf(allowed)(v) <==> v.StrVal? && v.s in allowed
  {
  }

  /** Rows are reported with the offset added: [1, "a", NaN, None, 2.5] with offset 2 flags rows 1, 2, 3 as 3, 4, 5. */
  lemma FloatOrIntegerExample()
    ensures Validate(map["c" := [IntVal(1), StrVal("a"), FloatNan, NoneVal, FloatVal(2.5)]], "c", NotFloatOrInteger, 2)
         == Ok(Report("c", InvalidRows([3, 4, 5])))
  {
    var col := [IntVal(1), StrVal("a"), FloatNan, NoneVal, FloatVal(2.5)];
    assert FlaggedRows(col, NotFloatOrInteger, 2, 1) == [];
    assert FlaggedRows(col, NotFloatOrInteger, 2, 5) == [3, 4, 5];
  }

  // ---------------------------------------------------------------------------------------------
  // The older validator of validate_input_data.py

  /** The older float/int check: flagged only when not an int or float instance; no null check and no offset. */
  predicate NotFloatOrIntegerInstance(v: Value) {
    !IsFloatOrInt(v)
  }

  /** The older check returns the bare list of raw row numbers, or `True`; a missing column raises KeyError. */
  method ValidateFloatOrIntegerInstance(sheet: Sheet, column: string) returns (r: Result<Verdict>)
    ensures column !in sheet ==> r == Err(KeyError(column))
    ensures column in sheet ==> r == Ok(VerdictOf(FlaggedRows(sheet[column], NotFloatOrIntegerInstance, 0, |sheet[column]|)))
  {
    if column !in sheet {
      return Err(KeyError(column));
    }
    var invalidRows := CollectInvalidRows(sheet[column], NotFloatOrIntegerInstance, 0);
    r := Ok(VerdictOf(invalidRows));
  }

  /**
   * The two float/int checks differ only on NaN: without offset, the newer one flags exactly the
   * rows the older one flags plus the NaN rows. In particular the older one never flags NaN.
   */
  lemma {:induction false} OlderCheckMissesOnlyNan(col: seq<Value>, i: nat)
    requires i < |col|
    ensures i in FlaggedRows(col, NotFloatOrInteger, 0, |col|)
        <==> i in FlaggedRows(col, NotFloatOrIntegerInstance, 0, |col|) || col[i] == FloatNan
    ensures col[i] == FloatNan ==> i !in FlaggedRows(col, NotFloatOrIntegerInstance, 0, |col|)
  {
    FlaggedRowsSpec(col, NotFloatOrInteger, 0, |col|);
    FlaggedRowsSpec(col, NotFloatOrIntegerInstance, 0, |col|);
  }
}
