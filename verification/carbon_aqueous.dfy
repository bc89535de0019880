/**
 * CarbonInAqueousPhase: the CO2 dissolved in the water of the sample, from the CO2 partial pressure
 * by Henry's law, its change between samplings, its running total and the dissolved inorganic
 * carbon per dry mass.
 */
module CarbonInAqueousPhase {
  import opened Series
  import opened Outcomes
  import opened Frame
  import opened CumulativeProductionGasPhase

  /** Henry's-law constant for CO2 at 20 degrees Celsius used when none is given, in mol/(m3 Pa). */
  const HenryDefault: real := 0.00523

  /** Molar mass of carbon used by the DIC calculation when none is given, in g/mol. */
  const MolarMassCarbonDefault: real := 12.0

  /** An undefined pressure in row 0 is read as 0; every other cell is kept. */
  function ZeroFirstIfNan(col: seq<Cell>): (r: seq<Cell>)
    ensures |r| == |col|
    ensures |col| > 0 ==> r[0] == if col[0].Nan? then Val(0.0) else col[0]
    ensures forall i | 1 <= i < |col| :: r[i] == col[i]
  {
    if |col| > 0 && col[0].Nan? then col[0 := Val(0.0)] else col
  }

  /**
   * The partial pressure of CO2 in Pa, `pressure * 100 * co2 / 100`, from the pressure in hPa
   * and the corrected CO2 percentage.
   */
  function PartialPressure(pressure: seq<Cell>, co2: seq<Cell>): (r: seq<Cell>)
    requires |pressure| == |co2|
    ensures |r| == |pressure|
    ensures forall i | 0 <= i < |r| ::
      (r[i].Val? <==> pressure[i].Val? && co2[i].Val?) && (r[i].Val? ==> r[i].x == pressure[i].x * co2[i].x)
  {
    seq(|pressure|, i requires 0 <= i < |pressure| => Div(Mul(Mul(pressure[i], Val(100.0)), co2[i]), Val(100.0)))
  }

  /**
   * `partial_pressure_carbon_dioxide` on a frame. It first reads cell 0 of the pressure column,
   * which raises KeyError for a missing column or an empty frame, and writes 0 into that input
   * cell when it is NaN; only then is the CO2 column read and the result stored.
   */
  method PartialPressureCarbonDioxide(df: DataFrame, name: string, namePressure: string, nameCo2: string)
    returns (r: Result<()>)
    requires df.Valid()
    modifies df
    ensures df.Valid() && df.rows == old(df.rows)
    ensures namePressure !in old(df.columns) ==> r == Err(KeyError(namePressure)) && unchanged(df)
    ensures namePressure in old(df.columns) && old(df.rows) == 0 ==> r == Err(RowKeyError(0)) && unchanged(df)
    ensures namePressure in old(df.columns) && old(df.rows) > 0 ==>
      var cols := old(df.columns)[namePressure := ZeroFirstIfNan(old(df.columns)[namePressure])];
      if nameCo2 !in cols then r == Err(KeyError(nameCo2)) && df.columns == cols
      else r == Ok(()) && df.columns == cols[name := PartialPressure(cols[namePressure], cols[nameCo2])]
  {
    if namePressure !in df.columns {
      return Err(KeyError(namePressure));
    }
    if df.rows == 0 {
      return Err(RowKeyError(0));
    }
    if df.columns[namePressure][0].Nan? {
      df.SetCell(namePressure, 0, Val(0.0));
    }
    if nameCo2 !in df.columns {
      return Err(KeyError(nameCo2));
    }
    df.SetColumn(name, PartialPressure(df.columns[namePressure], df.columns[nameCo2]));
    r := Ok(());
  }

  /** `carbon_dioxide_in_aqueous_phase_mol_per_m3`: Henry's law, concentration = partial pressure * constant. */
  function Concentration(partialPressure: seq<Cell>, henry: real): (r: seq<Cell>)
    ensures |r| == |partialPressure|
    ensures forall i | 0 <= i < |r| ::
      && (r[i].Val? <==> partialPressure[i].Val?)
      && (r[i].Val? ==> r[i].x == partialPressure[i].x * henry)
  {
    Scale(partialPressure, henry)
  }

  /** `carbon_dioxide_in_aqueous_phase_mol`: moles = concentration (mol/m3) * water volume (l) / 1000. */
  function AqueousMoles(concentration: seq<Cell>, waterLiters: real): (r: seq<Cell>)
    ensures |r| == |concentration|
    ensures forall i | 0 <= i < |r| ::
      && (r[i].Val? <==> concentration[i].Val?)
      && (r[i].Val? ==> r[i].x * 1000.0 == concentration[i].x * waterLiters)
  {
    Scale(concentration, waterLiters / 1000.0)
  }

  /**
   * Henry's law through the chain: the dissolved moles of a row are the partial pressure times the
   * Henry constant times the water volume in m3; undefined exactly when the partial pressure is.
   */
  lemma DissolvedMolesByHenry(partialPressure: seq<Cell>, henry: real, waterLiters: real, i: nat)
    requires i < |partialPressure|
    ensures var m := AqueousMoles(Concentration(partialPressure, henry), waterLiters)[i];
      && (m.Val? <==> partialPressure[i].Val?)
      && (m.Val? ==> m.x * 1000.0 == partialPressure[i].x * henry * waterLiters)
  {
  }

  /**
   * The worked chain: 1117.44 hPa at 0.03 % CO2 gives 33.5232 Pa, 0.175326336 mol/m3 with the
   * default constant, 1.7181980928e-5 mol in 0.098 l of water, and a DIC of 13.69737 for a dry
   * mass of 153.6 g.
   */
  lemma AqueousChainExample()
    ensures PartialPressure([Val(1117.44)], [Val(0.03)]) == [Val(33.5232)]
    ensures Concentration([Val(33.5232)], HenryDefault) == [Val(0.175326336)]
    ensures AqueousMoles([Val(0.175326336)], 0.098) == [Val(0.000017181980928)]
    ensures DissolvedInorganicCarbon([Val(0.175326336)], 153.6, MolarMassCarbonDefault) == Ok([Val(13.69737)])
  {
    var dic := DissolvedInorganicCarbon([Val(0.175326336)], 153.6, MolarMassCarbonDefault).value;
    assert dic[0].x * 153.6 == 0.175326336 * 12.0 * 1000.0;
    assert dic == [Val(13.69737)];
  }

  /**
   * `carbon_dioxide_dissolved_between_time_steps_aqueous`: before[i] - after[i - 1], except that
   * row 0 is before[0] - after[0]. Reading row 0 of an empty frame raises KeyError.
   */
  function DissolvedBetweenSteps(before: seq<Cell>, after: seq<Cell>): (r: Result<seq<Cell>>)
    requires |before| == |after|
    ensures r.Err? <==> |before| == 0
    ensures r.Err? ==> r.error == RowKeyError(0)
    ensures r.Ok? ==> |r.value| == |before| && r.value[0] == Sub(before[0], after[0])
    ensures r.Ok? ==> forall i | 1 <= i < |before| :: r.value[i] == Sub(before[i], after[i - 1])
  {
    if |before| == 0 then Err(RowKeyError(0))
    else
      var shifted := Minus(before, Shift(after));
      Ok(shifted[0 := Sub(before[0], after[0])])
  }

  /** The worked example: before [10,20,30,40,53] and after [5,15,20,35,44] give [5,15,15,20,18]. */
  lemma DissolvedBetweenStepsExample()
    ensures DissolvedBetweenSteps([Val(10.0), Val(20.0), Val(30.0), Val(40.0), Val(53.0)],
                                  [Val(5.0), Val(15.0), Val(20.0), Val(35.0), Val(44.0)])
         == Ok([Val(5.0), Val(15.0), Val(15.0), Val(20.0), Val(18.0)])
  {
    var d := DissolvedBetweenSteps([Val(10.0), Val(20.0), Val(30.0), Val(40.0), Val(53.0)],
                                   [Val(5.0), Val(15.0), Val(20.0), Val(35.0), Val(44.0)]).value;
    assert d[0] == Val(5.0) && d[1] == Val(15.0) && d[2] == Val(15.0) && d[3] == Val(20.0) && d[4] == Val(18.0);
    assert d == [Val(5.0), Val(15.0), Val(15.0), Val(20.0), Val(18.0)];
  }

  /** The sum of the defined cells among the first `n`. */
  function DefinedSum(col: seq<Cell>, n: nat): real
    requires n <= |col|
    decreases n
  {
    if n == 0 then 0.0 else DefinedSum(col, n - 1) + ValueOr0(col[n - 1])
  }

  /**
   * `carbon_dioxide_produced_aqueous_phase_cumulative`, pandas `cumsum`: an undefined row stays
   * undefined and is skipped, every defined row holds the sum of the defined rows up to it. It
   * ignores the flush column.
   */
  function RunningSum(col: seq<Cell>): (r: seq<Cell>)
    ensures |r| == |col|
    ensures forall i | 0 <= i < |col| :: r[i] == if col[i].Nan? then Nan else Val(DefinedSum(col, i + 1))
  {
    seq(|col|, i requires 0 <= i < |col| => if col[i].Nan? then Nan else Val(DefinedSum(col, i + 1)))
  }

  /** Each defined row of the running sum adds its own value to the last defined total before it (0 when there is none). */
  lemma {:induction false} RunningSumStep(col: seq<Cell>, j: nat, i: nat)
    requires j < i < |col| && col[i].Val? && col[j].Val?
    requires forall k | j < k < i :: col[k].Nan?
    ensures RunningSum(col)[i].x == RunningSum(col)[j].x + col[i].x
  {
    DefinedSumSkips(col, j + 1, i);
  }

  lemma {:induction false} DefinedSumSkips(col: seq<Cell>, m: nat, n: nat)
    requires m <= n <= |col|
    requires forall k | m <= k < n :: col[k].Nan?
    ensures DefinedSum(col, n) == DefinedSum(col, m)
    decreases n
  {
    if n > m {
      DefinedSumSkips(col, m, n - 1);
    }
  }

  /**
   * With every value defined, the running sum is the flush-aware fold with no flushes, seeded with
   * the first value.
   */
  lemma {:induction false} RunningSumIsFoldWithoutFlush(col: seq<Cell>, flush: seq<Cell>, i: nat)
    requires |col| == |flush| && i < |col|
    requires forall k | 0 <= k < |col| :: col[k].Val? && IsZero(flush[k])
    ensures RunningSum(col)[i] == CumulativeAt(col, flush, col[0].x, i)
    decreases i
  {
    if i > 0 {
      assert Base(flush, i) == i - 1;
      RunningSumIsFoldWithoutFlush(col, flush, i - 1);
    }
  }

  /** An undefined value is skipped rather than propagated: [1, NaN, 2] gives [1, NaN, 3]. */
  lemma RunningSumExample()
    ensures RunningSum([Val(1.0), Nan, Val(2.0)]) == [Val(1.0), Nan, Val(3.0)]
  {
    var col := [Val(1.0), Nan, Val(2.0)];
    assert DefinedSum(col, 1) == 1.0;
    assert DefinedSum(col, 2) == 1.0;
    assert DefinedSum(col, 3) == 3.0;
  }

  /**
   * `dissolved_inorganic_carbon_cumulative`: mg carbon per g dry weight, value * molar mass *
   * (1000 / dry mass). A zero dry mass raises ZeroDivisionError.
   */
  function DissolvedInorganicCarbon(col: seq<Cell>, dryMass: real, molarMass: real): (r: Result<seq<Cell>>)
    ensures r.Err? <==> dryMass == 0.0
    ensures r.Err? ==> r.error == ZeroDivisionError
    ensures r.Ok? ==> |r.value| == |col| && forall i | 0 <= i < |col| ::
      (r.value[i].Val? <==> col[i].Val?) && (r.value[i].Val? ==> r.value[i].x * dryMass == col[i].x * molarMass * 1000.0)
  {
    if dryMass == 0.0 then Err(ZeroDivisionError)
    else
      var k := 1000.0 / dryMass;
      assert k * dryMass == 1000.0;
      assert forall i | 0 <= i < |col| && col[i].Val? ::
        col[i].x * (molarMass * k) * dryMass == col[i].x * molarMass * (k * dryMass);
      Ok(Scale(col, molarMass * k))
  }
}
