/**
 * The standard gas-respiration calculations: setting and normalising the four measured gas
 * percentages (GasComposition), and turning pressure and percentages into moles with the ideal
 * gas law (MolGasCompositionCalculations).
 */
module GasCompositionCalculations {
  import opened Series
  import opened Outcomes
  import opened Frame

  // ---------------------------------------------------------------------------------------------
  // GasComposition.set_gas_composition

  /** The cell a frame holds after `set_gas_composition` wrote `written` into row `index`. */
  ghost function CellAfterSet(oldColumns: map<string, seq<Cell>>, oldRows: nat,
                              written: map<string, real>, index: nat, c: string, i: nat): Cell
  {
    if c in written && i == index then Val(written[c])
    else if c in oldColumns && i < oldRows && i < |oldColumns[c]| then oldColumns[c][i]
    else Nan
  }

  /** The column order after appending `name` unless it is already present. */
  function AppendIfMissing(names: seq<string>, name: string): (r: seq<string>)
    ensures name in r && forall x | x in names :: x in r
  {
    if name in names then names else names + [name]
  }

  /**
   * `data_frame.loc[index, [ch4, co2, o2, n2 columns]] = [ch4, co2, o2, n2]`: the four values are
   * written into row `index` and nothing else changes. As pandas does when setting with
   * enlargement, a missing column is appended (NaN elsewhere) and `index == rows` appends a row.
   */
  method SetGasComposition(df: DataFrame, ch4: real, co2: real, o2: real, n2: real,
                           nameCh4: string, nameCo2: string, nameO2: string, nameN2: string,
                           index: nat)
    requires df.Valid()
    requires Distinct([nameCh4, nameCo2, nameO2, nameN2])
    requires index <= df.rows
    modifies df
    ensures df.Valid()
    ensures df.rows == if index < old(df.rows) then old(df.rows) else old(df.rows) + 1
    ensures df.names == AppendIfMissing(AppendIfMissing(AppendIfMissing(AppendIfMissing(
      old(df.names), nameCh4), nameCo2), nameO2), nameN2)
    ensures df.columns.Keys == old(df.columns).Keys + {nameCh4, nameCo2, nameO2, nameN2}
    ensures forall c, i | c in df.columns && 0 <= i < df.rows ::
      df.columns[c][i] == CellAfterSet(old(df.columns), old(df.rows),
                                       map[nameCh4 := ch4, nameCo2 := co2, nameO2 := o2, nameN2 := n2],
                                       index, c, i)
  {
    ghost var oldColumns, oldRows := df.columns, df.rows;
    AddGasColumns(df, nameCh4, nameCo2, nameO2, nameN2, index);
    if index == df.rows {
      df.AppendRow();
    }
    WriteGasRow(df, ch4, co2, o2, n2, nameCh4, nameCo2, nameO2, nameN2, oldColumns, oldRows, index);
  }

  /** The first half of `SetGasComposition`: the missing gas columns are appended, filled with NaN. */
  method AddGasColumns(df: DataFrame, nameCh4: string, nameCo2: string, nameO2: string, nameN2: string, ghost index: nat)
    requires df.Valid()
    modifies df
    ensures df.Valid() && df.rows == old(df.rows)
    ensures df.names == AppendIfMissing(AppendIfMissing(AppendIfMissing(AppendIfMissing(
      old(df.names), nameCh4), nameCo2), nameO2), nameN2)
    ensures df.columns.Keys == old(df.columns).Keys + {nameCh4, nameCo2, nameO2, nameN2}
    ensures Agrees(df.columns, df.rows, old(df.columns), old(df.rows), map[], index)
  {
    ghost var oldColumns, oldRows := df.columns, df.rows;
    assert Agrees(df.columns, df.rows, oldColumns, oldRows, map[], index);
    AddTwoColumns(df, nameCh4, nameCo2, oldColumns, oldRows, index);
    AddTwoColumns(df, nameO2, nameN2, oldColumns, oldRows, index);
  }

  /** Two missing gas columns are appended, in order, keeping the prediction. */
  method AddTwoColumns(df: DataFrame, first: string, second: string,
                       ghost oldColumns: map<string, seq<Cell>>, ghost oldRows: nat, ghost index: nat)
    requires df.Valid() && df.rows == oldRows && oldColumns.Keys <= df.columns.Keys
    requires Agrees(df.columns, df.rows, oldColumns, oldRows, map[], index)
    modifies df
    ensures df.Valid() && df.rows == oldRows
    ensures df.columns.Keys == old(df.columns).Keys + {first, second}
    ensures df.names == AppendIfMissing(AppendIfMissing(old(df.names), first), second)
    ensures Agrees(df.columns, df.rows, oldColumns, oldRows, map[], index)
  {
    AddColumn(df, first, oldColumns, oldRows, index);
    AddColumn(df, second, oldColumns, oldRows, index);
  }

  /** The second half of `SetGasComposition`: the four values are written into row `index`. */
  method WriteGasRow(df: DataFrame, ch4: real, co2: real, o2: real, n2: real,
                     nameCh4: string, nameCo2: string, nameO2: string, nameN2: string,
                     ghost oldColumns: map<string, seq<Cell>>, ghost oldRows: nat, index: nat)
    requires df.Valid() && index < df.rows && oldRows <= df.rows
    requires {nameCh4, nameCo2, nameO2, nameN2} <= df.columns.Keys
    requires Agrees(df.columns, df.rows, oldColumns, oldRows, map[], index)
    modifies df
    ensures df.Valid() && df.rows == old(df.rows) && df.names == old(df.names)
    ensures df.columns.Keys == old(df.columns).Keys
    ensures Agrees(df.columns, df.rows, oldColumns, oldRows,
                   map[nameCh4 := ch4, nameCo2 := co2, nameO2 := o2, nameN2 := n2], index)
  {
    WriteCell(df, nameCh4, ch4, oldColumns, oldRows, map[], index);
    WriteCell(df, nameCo2, co2, oldColumns, oldRows, map[nameCh4 := ch4], index);
    WriteCell(df, nameO2, o2, oldColumns, oldRows, map[nameCh4 := ch4, nameCo2 := co2], index);
    WriteCell(df, nameN2, n2, oldColumns, oldRows, map[nameCh4 := ch4, nameCo2 := co2, nameO2 := o2], index);
  }

  /** Every cell of `columns` is the one `CellAfterSet` predicts for the values `written` so far. */
  ghost predicate Agrees(columns: map<string, seq<Cell>>, rows: nat, oldColumns: map<string, seq<Cell>>,
                         oldRows: nat, written: map<string, real>, index: nat)
  {
    forall c, i | c in columns && 0 <= i < rows && i < |columns[c]| ::
      columns[c][i] == CellAfterSet(oldColumns, oldRows, written, index, c, i)
  }

  /** Adding a missing gas column (all NaN) before any value is written keeps the prediction. */
  method AddColumn(df: DataFrame, name: string, ghost oldColumns: map<string, seq<Cell>>, ghost oldRows: nat, ghost index: nat)
    requires df.Valid() && df.rows == oldRows && oldColumns.Keys <= df.columns.Keys
    requires Agrees(df.columns, df.rows, oldColumns, oldRows, map[], index)
    modifies df
    ensures df.Valid() && df.rows == oldRows
    ensures df.columns.Keys == old(df.columns).Keys + {name}
    ensures df.names == AppendIfMissing(old(df.names), name)
    ensures Agrees(df.columns, df.rows, oldColumns, oldRows, map[], index)
  {
    df.AddColumnIfMissing(name);
  }

  /** Writing `v` into row `index` of `name` extends the prediction by `name := v`. */
  method WriteCell(df: DataFrame, name: string, v: real, ghost oldColumns: map<string, seq<Cell>>, ghost oldRows: nat,
                   ghost written: map<string, real>, index: nat)
    requires df.Valid() && name in df.columns && index < df.rows && oldRows <= df.rows
    requires Agrees(df.columns, df.rows, oldColumns, oldRows, written, index)
    modifies df
    ensures df.Valid() && df.rows == old(df.rows) && df.names == old(df.names)
    ensures df.columns.Keys == old(df.columns).Keys
    ensures Agrees(df.columns, df.rows, oldColumns, oldRows, written[name := v], index)
  {
    df.SetCell(name, index, Val(v));
  }

  // ---------------------------------------------------------------------------------------------
  // GasComposition.sum_correct_sum

  /** The six columns `sum_correct_sum` adds to the frame. */
  datatype Composition = Composition(sum: seq<Cell>,
                                     ch4: seq<Cell>, co2: seq<Cell>, o2: seq<Cell>, n2: seq<Cell>,
                                     sumCorr: seq<Cell>)

  /** `(100 / sum) * gas`, element-wise. */
  function Corrected(sum: seq<Cell>, gas: seq<Cell>): (r: seq<Cell>)
    requires |sum| == |gas|
    ensures |r| == |gas|
  {
    Times(seq(|sum|, i requires 0 <= i < |sum| => Div(Val(100.0), sum[i])), gas)
  }

  /**
   * `sum_correct_sum`: the raw sum of the four gases, each gas rescaled by 100 / sum, and the sum
   * of the rescaled values.
   */
  function SumCorrectSum(ch4: seq<Cell>, co2: seq<Cell>, o2: seq<Cell>, n2: seq<Cell>): (r: Composition)
    requires |ch4| == |co2| == |o2| == |n2|
    ensures |r.sum| == |r.ch4| == |r.co2| == |r.o2| == |r.n2| == |r.sumCorr| == |ch4|
    ensures forall i | 0 <= i < |ch4| ::
      && r.sum[i] == Add(Add(Add(ch4[i], co2[i]), o2[i]), n2[i])
      && r.ch4[i] == Mul(Div(Val(100.0), r.sum[i]), ch4[i])
      && r.co2[i] == Mul(Div(Val(100.0), r.sum[i]), co2[i])
      && r.o2[i] == Mul(Div(Val(100.0), r.sum[i]), o2[i])
      && r.n2[i] == Mul(Div(Val(100.0), r.sum[i]), n2[i])
      && r.sumCorr[i] == Add(Add(Add(r.ch4[i], r.co2[i]), r.o2[i]), r.n2[i])
  {
    var sum := Plus(Plus(Plus(ch4, co2), o2), n2);
    var cCh4, cCo2, cO2, cN2 := Corrected(sum, ch4), Corrected(sum, co2), Corrected(sum, o2), Corrected(sum, n2);
    Composition(sum, cCh4, cCo2, cO2, cN2, Plus(Plus(Plus(cCh4, cCo2), cO2), cN2))
  }

  predicate Defined4(ch4: Cell, co2: Cell, o2: Cell, n2: Cell) {
    ch4.Val? && co2.Val? && o2.Val? && n2.Val?
  }

  /** `100/s * a + 100/s * b + 100/s * c + 100/s * d == 100` when `s == a + b + c + d != 0`. */
  lemma RescaledSum(a: real, b: real, c: real, d: real)
    requires a + b + c + d != 0.0
    ensures var k := 100.0 / (a + b + c + d); k * a + k * b + k * c + k * d == 100.0
  {
    var s := a + b + c + d;
    var k := 100.0 / s;
    assert k * s == 100.0;
    assert k * a + k * b + k * c + k * d == k * s;
  }

  /** Whenever the raw sum of a row is defined and nonzero, the corrected percentages sum to exactly 100. */
  lemma CorrectedSumIsHundred(ch4: seq<Cell>, co2: seq<Cell>, o2: seq<Cell>, n2: seq<Cell>, i: nat)
    requires |ch4| == |co2| == |o2| == |n2| && i < |ch4|
    requires Defined4(ch4[i], co2[i], o2[i], n2[i])
    requires ch4[i].x + co2[i].x + o2[i].x + n2[i].x != 0.0
    ensures SumCorrectSum(ch4, co2, o2, n2).sumCorr[i] == Val(100.0)
  {
    RescaledSum(ch4[i].x, co2[i].x, o2[i].x, n2[i].x);
  }

  /** A row whose raw sum is zero, or has an undefined gas, gets undefined corrected values. */
  lemma CorrectedUndefinedWithoutSum(ch4: seq<Cell>, co2: seq<Cell>, o2: seq<Cell>, n2: seq<Cell>, i: nat)
    requires |ch4| == |co2| == |o2| == |n2| && i < |ch4|
    requires !Defined4(ch4[i], co2[i], o2[i], n2[i]) || ch4[i].x + co2[i].x + o2[i].x + n2[i].x == 0.0
    ensures var r := SumCorrectSum(ch4, co2, o2, n2);
      r.ch4[i] == r.co2[i] == r.o2[i] == r.n2[i] == r.sumCorr[i] == Nan
  {
  }

  /** A row that already sums to 100 is left unchanged by the correction. */
  lemma CorrectionKeepsHundred(ch4: seq<Cell>, co2: seq<Cell>, o2: seq<Cell>, n2: seq<Cell>, i: nat)
    requires |ch4| == |co2| == |o2| == |n2| && i < |ch4|
    requires Defined4(ch4[i], co2[i], o2[i], n2[i])
    requires ch4[i].x + co2[i].x + o2[i].x + n2[i].x == 100.0
    ensures var r := SumCorrectSum(ch4, co2, o2, n2);
      r.ch4[i] == ch4[i] && r.co2[i] == co2[i] && r.o2[i] == o2[i] && r.n2[i] == n2[i]
  {
  }

  /** Normalising already-corrected percentages changes nothing: the correction is idempotent. */
  lemma CorrectionIdempotent(ch4: seq<Cell>, co2: seq<Cell>, o2: seq<Cell>, n2: seq<Cell>, i: nat)
    requires |ch4| == |co2| == |o2| == |n2| && i < |ch4|
    requires Defined4(ch4[i], co2[i], o2[i], n2[i])
    requires ch4[i].x + co2[i].x + o2[i].x + n2[i].x != 0.0
    ensures var r := SumCorrectSum(ch4, co2, o2, n2);
      var again := SumCorrectSum(r.ch4, r.co2, r.o2, r.n2);
      again.ch4[i] == r.ch4[i] && again.co2[i] == r.co2[i] && again.o2[i] == r.o2[i] && again.n2[i] == r.n2[i]
  {
    var r := SumCorrectSum(ch4, co2, o2, n2);
    CorrectedSumIsHundred(ch4, co2, o2, n2, i);
    CorrectionKeepsHundred(r.ch4, r.co2, r.o2, r.n2, i);
  }

  /**
   * The worked example, three rows of methane, carbon dioxide, oxygen and nitrogen percentages:
   * row 0 (12, 33, 35, 30) sums to 110 and is rescaled by 100/110; the corrected row sums to 100.
   */
  lemma SumCorrectSumExampleRow0()
    ensures var r := SumCorrectSum([Val(12.0), Val(18.0), Val(30.0)], [Val(33.0), Val(17.0), Val(10.0)],
                                   [Val(35.0), Val(39.0), Val(10.0)], [Val(30.0), Val(16.0), Val(50.0)]);
      && r.sum[0] == Val(110.0) && r.sumCorr[0] == Val(100.0)
      && r.ch4[0] == Val(120.0 / 11.0) && r.co2[0] == Val(30.0) && r.o2[0] == Val(350.0 / 11.0) && r.n2[0] == Val(300.0 / 11.0)
  {
    var ch4, co2 := [Val(12.0), Val(18.0), Val(30.0)], [Val(33.0), Val(17.0), Val(10.0)];
    var o2, n2 := [Val(35.0), Val(39.0), Val(10.0)], [Val(30.0), Val(16.0), Val(50.0)];
    CorrectedSumIsHundred(ch4, co2, o2, n2, 0);
    RescaledCell(110.0, 12.0, 120.0 / 11.0);
    RescaledCell(110.0, 33.0, 30.0);
    RescaledCell(110.0, 35.0, 350.0 / 11.0);
    RescaledCell(110.0, 30.0, 300.0 / 11.0);
  }

  /** Row 1 of the example (18, 17, 39, 16) sums to 90 and is rescaled by 100/90. */
  lemma SumCorrectSumExampleRow1()
    ensures var r := SumCorrectSum([Val(12.0), Val(18.0), Val(30.0)], [Val(33.0), Val(17.0), Val(10.0)],
                                   [Val(35.0), Val(39.0), Val(10.0)], [Val(30.0), Val(16.0), Val(50.0)]);
      && r.sum[1] == Val(90.0) && r.sumCorr[1] == Val(100.0)
      && r.ch4[1] == Val(20.0) && r.co2[1] == Val(170.0 / 9.0) && r.o2[1] == Val(390.0 / 9.0) && r.n2[1] == Val(160.0 / 9.0)
  {
    var ch4, co2 := [Val(12.0), Val(18.0), Val(30.0)], [Val(33.0), Val(17.0), Val(10.0)];
    var o2, n2 := [Val(35.0), Val(39.0), Val(10.0)], [Val(30.0), Val(16.0), Val(50.0)];
    CorrectedSumIsHundred(ch4, co2, o2, n2, 1);
    RescaledCell(90.0, 18.0, 20.0);
    RescaledCell(90.0, 17.0, 170.0 / 9.0);
    RescaledCell(90.0, 39.0, 390.0 / 9.0);
    RescaledCell(90.0, 16.0, 160.0 / 9.0);
  }

  /** Row 2 of the example (30, 10, 10, 50) already sums to 100 and is unchanged. */
  lemma SumCorrectSumExampleRow2()
    ensures var r := SumCorrectSum([Val(12.0), Val(18.0), Val(30.0)], [Val(33.0), Val(17.0), Val(10.0)],
                                   [Val(35.0), Val(39.0), Val(10.0)], [Val(30.0), Val(16.0), Val(50.0)]);
      && r.sum[2] == Val(100.0) && r.sumCorr[2] == Val(100.0)
      && r.ch4[2] == Val(30.0) && r.co2[2] == Val(10.0) && r.o2[2] == Val(10.0) && r.n2[2] == Val(50.0)
  {
    var ch4, co2 := [Val(12.0), Val(18.0), Val(30.0)], [Val(33.0), Val(17.0), Val(10.0)];
    var o2, n2 := [Val(35.0), Val(39.0), Val(10.0)], [Val(30.0), Val(16.0), Val(50.0)];
    CorrectedSumIsHundred(ch4, co2, o2, n2, 2);
    CorrectionKeepsHundred(ch4, co2, o2, n2, 2);
  }

  /** One rescaled cell: `100 / sum * gas` is `expected` when `100 * gas == expected * sum`. */
  lemma RescaledCell(sum: real, gas: real, expected: real)
    requires sum != 0.0 && 100.0 * gas == expected * sum
    ensures Mul(Div(Val(100.0), Val(sum)), Val(gas)) == Val(expected)
  {
    calc {
      100.0 / sum * gas;
      (100.0 * gas) / sum;
      (expected * sum) / sum;
      expected;
    }
  }

  // ---------------------------------------------------------------------------------------------
  // MolGasCompositionCalculations

  /**
   * `mol_gas_sampling`: total headspace moles from the pressure in hPa by the ideal gas law,
   * n = P * 100 * V / (R * T). A zero R * T raises ZeroDivisionError, as Python float division does.
   */
  function MolGasSampling(pressure: seq<Cell>, rgas: real, temperature: real, volume: real): (r: Result<seq<Cell>>)
    ensures r.Err? <==> rgas * temperature == 0.0
    ensures r.Err? ==> r.error == ZeroDivisionError
    ensures r.Ok? ==> |r.value| == |pressure|
    ensures r.Ok? ==> forall i | 0 <= i < |pressure| ::
      && (r.value[i].Val? <==> pressure[i].Val?)
      && (r.value[i].Val? ==> r.value[i].x * (rgas * temperature) == pressure[i].x * 100.0 * volume)
  {
    if rgas * temperature == 0.0 then Err(ZeroDivisionError)
    else
      var k := 100.0 * volume / (rgas * temperature);
      IdealGasRows(pressure, k, rgas * temperature, volume);
      Ok(Scale(pressure, k))
  }

  /** Scaling by k = 100 V / (R T) turns every defined pressure row into moles with n R T == P 100 V. */
  lemma IdealGasRows(pressure: seq<Cell>, k: real, rt: real, volume: real)
    requires rt != 0.0 && k == 100.0 * volume / rt
    ensures forall i | 0 <= i < |pressure| && pressure[i].Val? :: Scale(pressure, k)[i].x * rt == pressure[i].x * 100.0 * volume
  {
    assert k * rt == 100.0 * volume;
    forall i | 0 <= i < |pressure| && pressure[i].Val?
      ensures Scale(pressure, k)[i].x * rt == pressure[i].x * 100.0 * volume
    {
      var p := pressure[i].x;
      assert p * k * rt == p * (k * rt);
    }
  }

  /** The moles are linear in the pressure: scaling the pressure by c scales the moles by c. */
  lemma MolGasSamplingLinear(pressure: seq<Cell>, rgas: real, temperature: real, volume: real, c: real)
    requires rgas * temperature != 0.0
    ensures var n := MolGasSampling(pressure, rgas, temperature, volume).value;
      var m := MolGasSampling(Scale(pressure, c), rgas, temperature, volume).value;
      forall i | 0 <= i < |pressure| && pressure[i].Val? :: m[i] == Val(c * n[i].x)
  {
    var k := 100.0 * volume / (rgas * temperature);
    forall i | 0 <= i < |pressure| && pressure[i].Val?
      ensures MolGasSampling(Scale(pressure, c), rgas, temperature, volume).value[i]
           == Val(c * MolGasSampling(pressure, rgas, temperature, volume).value[i].x)
    {
      assert (pressure[i].x * c) * k == c * (pressure[i].x * k);
    }
  }

  /** The worked example: with R = 8.314, T = 298 and V = 10, a pressure of 1000 hPa gives 403.62096.. mol. */
  lemma MolGasSamplingExample()
    ensures var r := MolGasSampling([Val(1000.0)], 8.314, 298.0, 10.0);
      r.Ok? && r.value[0].Val? && 403.620964 < r.value[0].x < 403.620965
  {
    var r := MolGasSampling([Val(1000.0)], 8.314, 298.0, 10.0);
    assert r.value[0].x * 2477.572 == 1000000.0;
  }

  /** `specific_gas_in_moles_before_sampling`: moles of one species, total moles * corrected % / 100. */
  function SpecificGasMoles(totalMoles: seq<Cell>, correctedPercentage: seq<Cell>): (r: seq<Cell>)
    requires |totalMoles| == |correctedPercentage|
    ensures |r| == |totalMoles|
    ensures forall i | 0 <= i < |r| :: r[i].Val? <==> totalMoles[i].Val? && correctedPercentage[i].Val?
    ensures forall i | 0 <= i < |r| && r[i].Val? :: r[i].x * 100.0 == totalMoles[i].x * correctedPercentage[i].x
  {
    Scale(Times(totalMoles, correctedPercentage), 1.0 / 100.0)
  }

  /** The worked example: 0.1 mol at 0.5 % is 0.0005 mol. */
  lemma SpecificGasMolesExample()
    ensures SpecificGasMoles([Val(0.1), Val(0.2), Val(0.3)], [Val(0.5), Val(0.7), Val(0.9)])
         == [Val(0.0005), Val(0.0014), Val(0.0027)]
  {
  }

  /**
   * The four species moles of a row whose composition was normalised from a nonzero raw sum add
   * back up to the total headspace moles.
   */
  lemma SpeciesMolesAddUpToTotal(total: seq<Cell>, ch4: seq<Cell>, co2: seq<Cell>, o2: seq<Cell>, n2: seq<Cell>, i: nat)
    requires |total| == |ch4| == |co2| == |o2| == |n2| && i < |total|
    requires total[i].Val? && Defined4(ch4[i], co2[i], o2[i], n2[i])
    requires ch4[i].x + co2[i].x + o2[i].x + n2[i].x != 0.0
    ensures var c := SumCorrectSum(ch4, co2, o2, n2);
      Add(Add(Add(SpecificGasMoles(total, c.ch4)[i], SpecificGasMoles(total, c.co2)[i]),
              SpecificGasMoles(total, c.o2)[i]), SpecificGasMoles(total, c.n2)[i]) == total[i]
  {
    var c := SumCorrectSum(ch4, co2, o2, n2);
    CorrectedSumIsHundred(ch4, co2, o2, n2, i);
    var t := total[i].x;
    var a, b, d, e := c.ch4[i].x, c.co2[i].x, c.o2[i].x, c.n2[i].x;
    assert a + b + d + e == 100.0;
    assert t * a * (1.0 / 100.0) + t * b * (1.0 / 100.0) + t * d * (1.0 / 100.0) + t * e * (1.0 / 100.0)
        == t * (a + b + d + e) * (1.0 / 100.0);
  }

  /** `carbon_total_moles`: carbon in the headspace is the CO2 moles plus the CH4 moles, row by row. */
  function CarbonTotalMoles(co2Moles: seq<Cell>, ch4Moles: seq<Cell>): (r: seq<Cell>)
    requires |co2Moles| == |ch4Moles|
    ensures |r| == |co2Moles|
    ensures forall i | 0 <= i < |r| ::
      && (r[i].Val? <==> co2Moles[i].Val? && ch4Moles[i].Val?)
      && (r[i].Val? ==> r[i].x == co2Moles[i].x + ch4Moles[i].x)
  {
    Plus(co2Moles, ch4Moles)
  }

  /** The worked example: CO2 [0.5, 0.8, 1.2] and CH4 [0.3, 0.4, 0.5] give [0.8, 1.2, 1.7]. */
  lemma CarbonTotalMolesExample()
    ensures CarbonTotalMoles([Val(0.5), Val(0.8), Val(1.2)], [Val(0.3), Val(0.4), Val(0.5)])
         == [Val(0.8), Val(1.2), Val(1.7)]
  {
  }
}
