/**
 * The per-sheet validation of the input workbook: the validators are run over every sample sheet
 * and the flagged rows are gathered into dictionaries `{sheet name: {column name: rows}}`, one
 * field per kind of check.
 */
module SheetValidation {
  import opened Outcomes
  import opened Frame
  import opened GeneralValidationFunctions

  /** `{sheet name: {column name: flagged rows}}`. */
  type Findings = map<string, map<string, seq<int>>>

  /** The allowed gas-chromatograph methods when none are given: low, high and very high. */
  const DefaultGcMethods: seq<string> := ["LM", "HM", "VHM"]

  /** The allowed gas-chromatograph methods: those given, or the defaults. */
  function AllowedOrDefault(allowed: Option<seq<string>>): seq<string> {
    if allowed.Some? then allowed.value else DefaultGcMethods
  }

  /**
   * What one sheet contributes for the first `n` of `columns`: an entry for each column with
   * flagged rows. A missing column raises KeyError, at the first one in column order.
   */
  function ColumnFindings(sheet: Sheet, columns: seq<string>, bad: Value -> bool, n: nat): Result<map<string, seq<int>>>
    requires n <= |columns|
    decreases n
  {
    if n == 0 then Ok(map[])
    else match ColumnFindings(sheet, columns, bad, n - 1)
      case Err(e) => Err(e)
      case Ok(m) =>
        match Validate(sheet, columns[n - 1], bad, 0)
        case Err(e) => Err(e)
        case Ok(report) => Ok(if report.verdict.InvalidRows? then m[columns[n - 1] := report.verdict.rows] else m)
  }

  /**
   * The dictionary over the first `n` sheets, each sheet with its own entry (possibly empty);
   * the first failing sheet's error otherwise.
   */
  function Combine(names: seq<string>, perSheet: seq<Result<map<string, seq<int>>>>, n: nat): Result<Findings>
    requires n <= |names| && n <= |perSheet|
    decreases n
  {
    if n == 0 then Ok(map[])
    else match Combine(names, perSheet, n - 1)
      case Err(e) => Err(e)
      case Ok(m) =>
        match perSheet[n - 1]
        case Err(e) => Err(e)
        case Ok(inner) => Ok(m[names[n - 1] := inner])
  }

  function SheetOf(frames: map<string, Sheet>, name: string): Sheet {
    if name in frames then frames[name] else map[]
  }

  /** The rows whose flush is 1 and whose value is not a defined int or float. */
  function FlushFlaggedRows(values: seq<Value>, flush: seq<Value>, n: nat): seq<int>
    requires n <= |values|
    decreases n
  {
    if n == 0 then []
    else
      var i := n - 1;
      FlushFlaggedRows(values, flush, i)
        + (if i < |flush| && EqualsNumber(flush[i], 1.0) && NotFloatOrInteger(values[i]) then [i] else [])
  }

  /** What one sheet contributes to the weight-when-flush check; the checked column is read before the flush column. */
  function WeightFindings(sheet: Sheet, column: string, flushColumn: string): Result<map<string, seq<int>>> {
    if column !in sheet then Err(KeyError(column))
    else if flushColumn !in sheet then Err(KeyError(flushColumn))
    else
      var rows := FlushFlaggedRows(sheet[column], sheet[flushColumn], |sheet[column]|);
      Ok(if |rows| > 0 then map[column := rows] else map[])
  }

  /** `names` lists exactly the sheets of `frames`. */
  predicate SheetsOf(frames: map<string, Sheet>, names: seq<string>) {
    && (forall k | 0 <= k < |names| :: names[k] in frames)
    && (forall name | name in frames :: name in names)
  }

  function Min(a: nat, b: nat): nat {
    if a <= b then a else b
  }

  // The specification of each `fill_dict_*` method: what each sheet contributes, combined in sheet order.

  function NoIntOrFloatPerSheet(frames: map<string, Sheet>, names: seq<string>, columns: seq<string>)
    : (r: seq<Result<map<string, seq<int>>>>)
    ensures |r| == |names|
  {
    seq(|names|, k requires 0 <= k < |names| => ColumnFindings(SheetOf(frames, names[k]), columns, NotFloatOrInteger, |columns|))
  }

  function NoIntOrFloatFindings(frames: map<string, Sheet>, names: seq<string>, columns: seq<string>): Result<Findings> {
    Combine(names, NoIntOrFloatPerSheet(frames, names, columns), |names|)
  }

  function SampleIdPerSheet(frames: map<string, Sheet>, names: seq<string>, column: string, ids: seq<string>)
    : (r: seq<Result<map<string, seq<int>>>>)
    ensures |r| == Min(|names|, |ids|)
  {
    var n := Min(|names|, |ids|);
    seq(n, k requires 0 <= k < n => Entry(column, Validate(SheetOf(frames, names[k]), column, IsSpecificString(ids[k]), 0)))
  }

  function SampleIdFindings(frames: map<string, Sheet>, names: seq<string>, column: string, ids: seq<string>): Result<Findings> {
    Combine(names, SampleIdPerSheet(frames, names, column, ids), Min(|names|, |ids|))
  }

  function ParallelPerSheet(frames: map<string, Sheet>, names: seq<string>, column: string, parallels: seq<real>)
    : (r: seq<Result<map<string, seq<int>>>>)
    ensures |r| == Min(|names|, |parallels|)
  {
    var n := Min(|names|, |parallels|);
    seq(n, k requires 0 <= k < n => Entry(column, Validate(SheetOf(frames, names[k]), column, NotSpecificNumber(parallels[k]), 0)))
  }

  function ParallelFindings(frames: map<string, Sheet>, names: seq<string>, column: string, parallels: seq<real>): Result<Findings> {
    Combine(names, ParallelPerSheet(frames, names, column, parallels), Min(|names|, |parallels|))
  }

  function GcMethodPerSheet(frames: map<string, Sheet>, names: seq<string>, column: string, allowed: seq<string>)
    : (r: seq<Result<map<string, seq<int>>>>)
    ensures |r| == |names|
  {
    seq(|names|, k requires 0 <= k < |names| => Entry(column, Validate(SheetOf(frames, names[k]), column, NotOneOf(allowed), 0)))
  }

  function GcMethodFindings(frames: map<string, Sheet>, names: seq<string>, column: string, allowed: seq<string>): Result<Findings> {
    Combine(names, GcMethodPerSheet(frames, names, column, allowed), |names|)
  }

  function WeightPerSheet(frames: map<string, Sheet>, names: seq<string>, column: string, flushColumn: string)
    : (r: seq<Result<map<string, seq<int>>>>)
    ensures |r| == |names|
  {
    seq(|names|, k requires 0 <= k < |names| => WeightFindings(SheetOf(frames, names[k]), column, flushColumn))
  }

  function NoWeightWhenFlushFindings(frames: map<string, Sheet>, names: seq<string>, column: string, flushColumn: string)
    : Result<Findings>
  {
    Combine(names, WeightPerSheet(frames, names, column, flushColumn), |names|)
  }

  // Properties of the specification.

  /** Once a sheet fails, the whole dictionary fails with the first error. */
  lemma {:induction false} CombineErrSticks(names: seq<string>, perSheet: seq<Result<map<string, seq<int>>>>, k: nat, n: nat)
    requires k <= n <= |names| && n <= |perSheet| && Combine(names, perSheet, k).Err?
    ensures Combine(names, perSheet, n) == Combine(names, perSheet, k)
    decreases n
  {
    if n > k {
      CombineErrSticks(names, perSheet, k, n - 1);
    }
  }

  /** Once a column fails, the sheet fails with the first error. */
  lemma {:induction false} ColumnFindingsErrSticks(sheet: Sheet, columns: seq<string>, bad: Value -> bool, k: nat, n: nat)
    requires k <= n <= |columns| && ColumnFindings(sheet, columns, bad, k).Err?
    ensures ColumnFindings(sheet, columns, bad, n) == ColumnFindings(sheet, columns, bad, k)
    decreases n
  {
    if n > k {
      ColumnFindingsErrSticks(sheet, columns, bad, k, n - 1);
    }
  }

  /** A sheet's entry for one validator outcome: the column's flagged rows, if any. */
  function Entry(column: string, report: Result<Report>): Result<map<string, seq<int>>> {
    match report
    case Err(e) => Err(e)
    case Ok(rep) => Ok(if rep.verdict.InvalidRows? then map[column := rep.verdict.rows] else map[])
  }

  /** One more sheet: its error becomes the result, or its entry is added. */
  lemma CombineNext(names: seq<string>, perSheet: seq<Result<map<string, seq<int>>>>, k: nat, n: nat, findings: Findings)
    requires k < n <= |names| && n <= |perSheet| && Combine(names, perSheet, k) == Ok(findings)
    ensures perSheet[k].Err? ==> Combine(names, perSheet, n) == Err(perSheet[k].error)
    ensures perSheet[k].Ok? ==> Combine(names, perSheet, k + 1) == Ok(findings[names[k] := perSheet[k].value])
  {
    if perSheet[k].Err? {
      CombineErrSticks(names, perSheet, k + 1, n);
    }
  }

  /** A successful dictionary has a key for each of the first `n` sheets and no other. */
  lemma {:induction false} CombineKeys(names: seq<string>, perSheet: seq<Result<map<string, seq<int>>>>, n: nat)
    requires n <= |names| && n <= |perSheet| && Combine(names, perSheet, n).Ok?
    ensures Combine(names, perSheet, n).value.Keys == set k | 0 <= k < n :: names[k]
    ensures forall k | 0 <= k < n :: perSheet[k].Ok?
    decreases n
  {
    if n > 0 {
      CombineKeys(names, perSheet, n - 1);
    }
  }

  /** The dictionary fails exactly when one of the first `n` sheets fails. */
  lemma {:induction false} CombineOkIff(names: seq<string>, perSheet: seq<Result<map<string, seq<int>>>>, n: nat)
    requires n <= |names| && n <= |perSheet|
    ensures Combine(names, perSheet, n).Ok? <==> forall k | 0 <= k < n :: perSheet[k].Ok?
    decreases n
  {
    if n > 0 {
      CombineOkIff(names, perSheet, n - 1);
    }
  }

  /** A sheet succeeds exactly when each of its first `n` columns is present. */
  lemma {:induction false} ColumnFindingsOkIff(sheet: Sheet, columns: seq<string>, bad: Value -> bool, n: nat)
    requires n <= |columns|
    ensures ColumnFindings(sheet, columns, bad, n).Ok? <==> forall j | 0 <= j < n :: columns[j] in sheet
    decreases n
  {
    if n > 0 {
      ColumnFindingsOkIff(sheet, columns, bad, n - 1);
    }
  }

  /**
   * A successful sheet's entries: only the checked columns appear, and a column has an entry
   * exactly when some of its rows are flagged, the entry being those rows.
   */
  lemma {:induction false} ColumnFindingsEntries(sheet: Sheet, columns: seq<string>, bad: Value -> bool, n: nat)
    requires n <= |columns| && ColumnFindings(sheet, columns, bad, n).Ok?
    ensures var m := ColumnFindings(sheet, columns, bad, n).value;
      && (forall c | c in m :: c in columns[..n])
      && (forall j | 0 <= j < n ::
            var c := columns[j];
            c in sheet
            && (c in m <==> FlaggedRows(sheet[c], bad, 0, |sheet[c]|) != [])
            && (c in m ==> m[c] == FlaggedRows(sheet[c], bad, 0, |sheet[c]|)))
    decreases n
  {
    if n > 0 {
      var prev := ColumnFindings(sheet, columns, bad, n - 1);
      assert prev.Ok?;
      ColumnFindingsEntries(sheet, columns, bad, n - 1);
      var c := columns[n - 1];
      assert c in sheet;
      var rows := FlaggedRows(sheet[c], bad, 0, |sheet[c]|);
      var m := ColumnFindings(sheet, columns, bad, n).value;
      assert m == if rows != [] then prev.value[c := rows] else prev.value;
      assert columns[..n] == columns[..n - 1] + [c];
      forall j | 0 <= j < n - 1 && columns[j] != c
        ensures columns[j] in m <==> columns[j] in prev.value
        ensures columns[j] in m ==> m[columns[j]] == prev.value[columns[j]]
      {
      }
    }
  }

  /** The weight-when-flush rows: flagged exactly when flush is 1 and the value is not a defined number; other flush values never flag. */
  lemma {:induction false} FlushFlaggedRowsSpec(values: seq<Value>, flush: seq<Value>, n: nat)
    requires n <= |values| == |flush|
    ensures forall i | 0 <= i < n ::
      (i in FlushFlaggedRows(values, flush, n) <==> EqualsNumber(flush[i], 1.0) && NotFloatOrInteger(values[i]))
    ensures forall x | x in FlushFlaggedRows(values, flush, n) :: 0 <= x < n
    decreases n
  {
    if n > 0 {
      FlushFlaggedRowsSpec(values, flush, n - 1);
    }
  }

  // ---------------------------------------------------------------------------------------------

  /**
   * `validate_if_all_cells_are_correctly_filled`: the sheets to check, in the order of the
   * dictionary they came from, and one field per check holding its last result (`None` before
   * the check was run).
   */
  class ValidateIfAllCellsAreCorrectlyFilled {
    const frames: map<string, Sheet>
    const sheetNames: seq<string>
    var noIntOrFloat: Option<Findings>
    var incorrectSampleId: Option<Findings>
    var incorrectParallel: Option<Findings>
    var incorrectGcMethod: Option<Findings>
    var noCorrectStringsAndParallel: seq<Findings>
    var noWeightWhenFlush: Option<Findings>

    ghost predicate Valid() {
      Distinct(sheetNames) && SheetsOf(frames, sheetNames)
    }

    constructor (frames: map<string, Sheet>, sheetNames: seq<string>)
      requires Distinct(sheetNames) && SheetsOf(frames, sheetNames)
      ensures Valid() && this.frames == frames && this.sheetNames == sheetNames
      ensures noIntOrFloat == None && incorrectSampleId == None && incorrectParallel == None
      ensures incorrectGcMethod == None && noWeightWhenFlush == None && noCorrectStringsAndParallel == []
    {
      this.frames := frames;
      this.sheetNames := sheetNames;
      noIntOrFloat, incorrectSampleId, incorrectParallel, incorrectGcMethod, noWeightWhenFlush := None, None, None, None, None;
      noCorrectStringsAndParallel := [];
    }

    /** The inner loop over the columns of one sheet. */
    static method SheetColumnFindings(sheet: Sheet, columns: seq<string>) returns (r: Result<map<string, seq<int>>>)
      ensures r == ColumnFindings(sheet, columns, NotFloatOrInteger, |columns|)
    {
      var inner := map[];
      for j := 0 to |columns|
        invariant ColumnFindings(sheet, columns, NotFloatOrInteger, j) == Ok(inner)
      {
        var report := ValidateFloatOrInteger(sheet, columns[j], 0);
        if report.Err? {
          ColumnFindingsErrSticks(sheet, columns, NotFloatOrInteger, j + 1, |columns|);
          return Err(report.error);
        }
        if report.value.verdict.InvalidRows? {
          inner := inner[columns[j] := report.value.verdict.rows];
        }
      }
      r := Ok(inner);
    }

    /** Sheet `k` of the sample-id check. */
    static method SampleIdEntry(frames: map<string, Sheet>, names: seq<string>, column: string, ids: seq<string>, k: nat)
      returns (e: Result<map<string, seq<int>>>)
      requires k < |names| && k < |ids| && names[k] in frames
      ensures e == SampleIdPerSheet(frames, names, column, ids)[k]
    {
      var report := ValidateSpecificString(frames[names[k]], column, ids[k], 0);
      e := Entry(column, report);
    }

    /** Sheet `k` of the parallel check. */
    static method ParallelEntry(frames: map<string, Sheet>, names: seq<string>, column: string, parallels: seq<real>, k: nat)
      returns (e: Result<map<string, seq<int>>>)
      requires k < |names| && k < |parallels| && names[k] in frames
      ensures e == ParallelPerSheet(frames, names, column, parallels)[k]
    {
      var report := ValidateNoSpecificNumber(frames[names[k]], column, parallels[k], 0);
      e := Entry(column, report);
    }

    /** Sheet `k` of the gas-chromatograph-method check. */
    static method GcMethodEntry(frames: map<string, Sheet>, names: seq<string>, column: string, methods: seq<string>, k: nat)
      returns (e: Result<map<string, seq<int>>>)
      requires k < |names| && names[k] in frames
      ensures e == GcMethodPerSheet(frames, names, column, methods)[k]
    {
      var report := ValidateOneOfStrings(frames[names[k]], column, methods, 0);
      e := Entry(column, report);
    }

    /** One sheet of the weight-when-flush check: the loop over its rows. */
    static method SheetWeightFindings(sheet: Sheet, column: string, flushColumn: string) returns (e: Result<map<string, seq<int>>>)
      ensures e == WeightFindings(sheet, column, flushColumn)
    {
      if column !in sheet || flushColumn !in sheet {
        return if column !in sheet then Err(KeyError(column)) else Err(KeyError(flushColumn));
      }
      var values, flush := sheet[column], sheet[flushColumn];
      var invalidRows := [];
      for index := 0 to |values|
        invariant invalidRows == FlushFlaggedRows(values, flush, index)
      {
        if index < |flush| && EqualsNumber(flush[index], 1.0) {
          var value := values[index];
          if NotFloatOrInteger(value) {
            invalidRows := invalidRows + [index];
          }
        }
      }
      e := Ok(if |invalidRows| > 0 then map[column := invalidRows] else map[]);
    }

    /** The loop over the sheets of the int-or-float check. */
    static method NoIntOrFloatAcrossSheets(frames: map<string, Sheet>, names: seq<string>, columns: seq<string>) returns (r: Result<Findings>)
      requires forall k | 0 <= k < |names| :: names[k] in frames
      ensures r == NoIntOrFloatFindings(frames, names, columns)
    {
      ghost var perSheet := NoIntOrFloatPerSheet(frames, names, columns);
      var findings := map[];
      for k := 0 to |names|
        invariant Combine(names, perSheet, k) == Ok(findings)
      {
        var entry := SheetColumnFindings(frames[names[k]], columns);
        assert perSheet[k] == entry;
        CombineNext(names, perSheet, k, |names|, findings);
        if entry.Err? {
          return Err(entry.error);
        }
        findings := findings[names[k] := entry.value];
      }
      r := Ok(findings);
    }

    /** The loop over the sheets of the sample-id check, up to the shorter of the two lists. */
    static method SampleIdAcrossSheets(frames: map<string, Sheet>, names: seq<string>, column: string, ids: seq<string>) returns (r: Result<Findings>)
      requires forall k | 0 <= k < |names| :: names[k] in frames
      ensures r == SampleIdFindings(frames, names, column, ids)
    {
      ghost var perSheet := SampleIdPerSheet(frames, names, column, ids);
      var findings := map[];
      for k := 0 to Min(|names|, |ids|)
        invariant Combine(names, perSheet, k) == Ok(findings)
      {
        var entry := SampleIdEntry(frames, names, column, ids, k);
        CombineNext(names, perSheet, k, Min(|names|, |ids|), findings);
        if entry.Err? {
          return Err(entry.error);
        }
        findings := findings[names[k] := entry.value];
      }
      r := Ok(findings);
    }

    /** The loop over the sheets of the parallel check, up to the shorter of the two lists. */
    static method ParallelAcrossSheets(frames: map<string, Sheet>, names: seq<string>, column: string, parallels: seq<real>) returns (r: Result<Findings>)
      requires forall k | 0 <= k < |names| :: names[k] in frames
      ensures r == ParallelFindings(frames, names, column, parallels)
    {
      ghost var perSheet := ParallelPerSheet(frames, names, column, parallels);
      var findings := map[];
      for k := 0 to Min(|names|, |parallels|)
        invariant Combine(names, perSheet, k) == Ok(findings)
      {
        var entry := ParallelEntry(frames, names, column, parallels, k);
        CombineNext(names, perSheet, k, Min(|names|, |parallels|), findings);
        if entry.Err? {
          return Err(entry.error);
        }
        findings := findings[names[k] := entry.value];
      }
      r := Ok(findings);
    }

    /** The loop over the sheets of the gas-chromatograph-method check. */
    static method GcMethodAcrossSheets(frames: map<string, Sheet>, names: seq<string>, column: string, methods: seq<string>) returns (r: Result<Findings>)
      requires forall k | 0 <= k < |names| :: names[k] in frames
      ensures r == GcMethodFindings(frames, names, column, methods)
    {
      ghost var perSheet := GcMethodPerSheet(frames, names, column, methods);
      var findings := map[];
      for k := 0 to |names|
        invariant Combine(names, perSheet, k) == Ok(findings)
      {
        var entry := GcMethodEntry(frames, names, column, methods, k);
        CombineNext(names, perSheet, k, |names|, findings);
        if entry.Err? {
          return Err(entry.error);
        }
        findings := findings[names[k] := entry.value];
      }
      r := Ok(findings);
    }

    /** The loop over the sheets of the weight-when-flush check. */
    static method NoWeightWhenFlushAcrossSheets(frames: map<string, Sheet>, names: seq<string>, column: string, flushColumn: string) returns (r: Result<Findings>)
      requires forall k | 0 <= k < |names| :: names[k] in frames
      ensures r == NoWeightWhenFlushFindings(frames, names, column, flushColumn)
    {
      ghost var perSheet := WeightPerSheet(frames, names, column, flushColumn);
      var findings := map[];
      for k := 0 to |names|
        invariant Combine(names, perSheet, k) == Ok(findings)
      {
        var entry := SheetWeightFindings(frames[names[k]], column, flushColumn);
        assert perSheet[k] == entry;
        CombineNext(names, perSheet, k, |names|, findings);
        if entry.Err? {
          return Err(entry.error);
        }
        findings := findings[names[k] := entry.value];
      }
      r := Ok(findings);
    }

    /** `fill_dict_indexes_as_panda_indexes_no_int_or_float`: every sheet, every listed column. */
    method FillNoIntOrFloat(columns: seq<string>) returns (r: Result<Findings>)
      requires Valid()
      modifies this`noIntOrFloat
      ensures r == NoIntOrFloatFindings(frames, sheetNames, columns)
      ensures r.Ok? ==> noIntOrFloat == Some(r.value)
      ensures r.Err? ==> noIntOrFloat == old(noIntOrFloat)
    {
      r := NoIntOrFloatAcrossSheets(frames, sheetNames, columns);
      if r.Ok? {
        noIntOrFloat := Some(r.value);
      }
    }

    /**
     * `fill_dict_indexes_as_pandas_incorrect_sample_id`: sheet k is paired with `ids[k]` and
     * stops at the shorter of the two; the result is also appended to the shared list.
     */
    method FillIncorrectSampleId(column: string, ids: seq<string>) returns (r: Result<Findings>)
      requires Valid()
      modifies this`incorrectSampleId, this`noCorrectStringsAndParallel
      ensures r == SampleIdFindings(frames, sheetNames, column, ids)
      ensures r.Ok? ==>
        incorrectSampleId == Some(r.value) && noCorrectStringsAndParallel == old(noCorrectStringsAndParallel) + [r.value]
      ensures r.Err? ==>
        incorrectSampleId == old(incorrectSampleId) && noCorrectStringsAndParallel == old(noCorrectStringsAndParallel)
    {
      r := SampleIdAcrossSheets(frames, sheetNames, column, ids);
      if r.Ok? {
        incorrectSampleId := Some(r.value);
        noCorrectStringsAndParallel := noCorrectStringsAndParallel + [r.value];
      }
    }

    /** `fill_dict_indexes_as_pandas_incorrect_parallel`: as the sample-id check, pairing sheet k with `parallels[k]`. */
    method FillIncorrectParallel(column: string, parallels: seq<real>) returns (r: Result<Findings>)
      requires Valid()
      modifies this`incorrectParallel, this`noCorrectStringsAndParallel
      ensures r == ParallelFindings(frames, sheetNames, column, parallels)
      ensures r.Ok? ==>
        incorrectParallel == Some(r.value) && noCorrectStringsAndParallel == old(noCorrectStringsAndParallel) + [r.value]
      ensures r.Err? ==>
        incorrectParallel == old(incorrectParallel) && noCorrectStringsAndParallel == old(noCorrectStringsAndParallel)
    {
      r := ParallelAcrossSheets(frames, sheetNames, column, parallels);
      if r.Ok? {
        incorrectParallel := Some(r.value);
        noCorrectStringsAndParallel := noCorrectStringsAndParallel + [r.value];
      }
    }

    /** `fill_dict_indexes_as_pandas_incorrect_gc_method`: every sheet against the allowed methods, by default LM, HM and VHM. */
    method FillIncorrectGcMethod(column: string, allowed: Option<seq<string>>) returns (r: Result<Findings>)
      requires Valid()
      modifies this`incorrectGcMethod, this`noCorrectStringsAndParallel
      ensures r == GcMethodFindings(frames, sheetNames, column, AllowedOrDefault(allowed))
      ensures r.Ok? ==>
        incorrectGcMethod == Some(r.value) && noCorrectStringsAndParallel == old(noCorrectStringsAndParallel) + [r.value]
      ensures r.Err? ==>
        incorrectGcMethod == old(incorrectGcMethod) && noCorrectStringsAndParallel == old(noCorrectStringsAndParallel)
    {
      r := GcMethodAcrossSheets(frames, sheetNames, column, AllowedOrDefault(allowed));
      if r.Ok? {
        incorrectGcMethod := Some(r.value);
        noCorrectStringsAndParallel := noCorrectStringsAndParallel + [r.value];
      }
    }

    /** `fill_dict_indexes_as_pandas_no_weight_when_flush`: on every sheet, the flushed rows without a defined weight. */
    method FillNoWeightWhenFlush(column: string, flushColumn: string) returns (r: Result<Findings>)
      requires Valid()
      modifies this`noWeightWhenFlush
      ensures r == NoWeightWhenFlushFindings(frames, sheetNames, column, flushColumn)
      ensures r.Ok? ==> noWeightWhenFlush == Some(r.value)
      ensures r.Err? ==> noWeightWhenFlush == old(noWeightWhenFlush)
    {
      r := NoWeightWhenFlushAcrossSheets(frames, sheetNames, column, flushColumn);
      if r.Ok? {
        noWeightWhenFlush := Some(r.value);
      }
    }
  }

  /** A successful check has an entry for every sheet. */
  lemma NoIntOrFloatCoversSheets(frames: map<string, Sheet>, names: seq<string>, columns: seq<string>)
    ensures NoIntOrFloatFindings(frames, names, columns).Ok? ==>
      NoIntOrFloatFindings(frames, names, columns).value.Keys == set k | 0 <= k < |names| :: names[k]
  {
    var perSheet := NoIntOrFloatPerSheet(frames, names, columns);
    if Combine(names, perSheet, |names|).Ok? { CombineKeys(names, perSheet, |names|); }
  }

  /** A successful paired check has an entry for every sheet that has a partner sample id. */
  lemma SampleIdCoversSheets(frames: map<string, Sheet>, names: seq<string>, column: string, ids: seq<string>)
    ensures SampleIdFindings(frames, names, column, ids).Ok? ==>
      SampleIdFindings(frames, names, column, ids).value.Keys == set k | 0 <= k < Min(|names|, |ids|) :: names[k]
  {
    var perSheet := SampleIdPerSheet(frames, names, column, ids);
    if Combine(names, perSheet, Min(|names|, |ids|)).Ok? { CombineKeys(names, perSheet, Min(|names|, |ids|)); }
  }

  /** A successful paired check has an entry for every sheet that has a partner parallel number. */
  lemma ParallelCoversSheets(frames: map<string, Sheet>, names: seq<string>, column: string, parallels: seq<real>)
    ensures ParallelFindings(frames, names, column, parallels).Ok? ==>
      ParallelFindings(frames, names, column, parallels).value.Keys == set k | 0 <= k < Min(|names|, |parallels|) :: names[k]
  {
    var perSheet := ParallelPerSheet(frames, names, column, parallels);
    if Combine(names, perSheet, Min(|names|, |parallels|)).Ok? { CombineKeys(names, perSheet, Min(|names|, |parallels|)); }
  }

  /** A successful check has an entry for every sheet. */
  lemma GcMethodCoversSheets(frames: map<string, Sheet>, names: seq<string>, column: string, allowed: seq<string>)
    ensures GcMethodFindings(frames, names, column, allowed).Ok? ==>
      GcMethodFindings(frames, names, column, allowed).value.Keys == set k | 0 <= k < |names| :: names[k]
  {
    var perSheet := GcMethodPerSheet(frames, names, column, allowed);
    if Combine(names, perSheet, |names|).Ok? { CombineKeys(names, perSheet, |names|); }
  }

  /** A successful check has an entry for every sheet. */
  lemma NoWeightWhenFlushCoversSheets(frames: map<string, Sheet>, names: seq<string>, column: string, flushColumn: string)
    ensures NoWeightWhenFlushFindings(frames, names, column, flushColumn).Ok? ==>
      NoWeightWhenFlushFindings(frames, names, column, flushColumn).value.Keys == set k | 0 <= k < |names| :: names[k]
  {
    var perSheet := WeightPerSheet(frames, names, column, flushColumn);
    if Combine(names, perSheet, |names|).Ok? { CombineKeys(names, perSheet, |names|); }
  }
}
