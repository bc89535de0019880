/**
 * MolesProduced: the amount produced or consumed in the headspace between two samplings,
 * before[i] - after[i - 1], with the first row seeded and flushed rows left undefined.
 */
module MolesProduced {
  import opened Series
  import opened Outcomes
  import opened Frame

  /**
   * `total_carbon_produced_moles` (and the computation of `carbon_dioxide_produced_moles`):
   * `before - after.shift(1)`, row 0 overwritten with the seed, then every row whose flush is 1
   * set to NaN (row 0 included).
   */
  function ProducedMoles(before: seq<Cell>, after: seq<Cell>, flush: seq<Cell>, seed: real): (r: seq<Cell>)
    requires |before| == |after| == |flush|
    ensures |r| == |before|
    ensures forall i | 0 <= i < |r| ::
      r[i] == if IsOne(flush[i]) then Nan else if i == 0 then Val(seed) else Sub(before[i], after[i - 1])
  {
    MaskFlushed(SetFirst(Minus(before, Shift(after)), seed), flush)
  }

  /**
   * `oxygen_consumed_moles`: the same step negated, so that a positive value means oxygen was
   * taken out of the headspace: after[i - 1] - before[i]. The seed is not negated.
   */
  function OxygenConsumedMoles(before: seq<Cell>, after: seq<Cell>, flush: seq<Cell>, seed: real): (r: seq<Cell>)
    requires |before| == |after| == |flush|
    ensures |r| == |before|
    ensures forall i | 0 <= i < |r| ::
      r[i] == if IsOne(flush[i]) then Nan else if i == 0 then Val(seed) else Sub(after[i - 1], before[i])
  {
    MaskFlushed(SetFirst(Scale(Minus(before, Shift(after)), -1.0), seed), flush)
  }

  /** A step is undefined exactly on flushed rows and on rows i >= 1 whose inputs are undefined. */
  lemma ProducedMolesUndefined(before: seq<Cell>, after: seq<Cell>, flush: seq<Cell>, seed: real, i: nat)
    requires |before| == |after| == |flush| && i < |before|
    ensures ProducedMoles(before, after, flush, seed)[i].Nan?
        <==> IsOne(flush[i]) || (i >= 1 && (before[i].Nan? || after[i - 1].Nan?))
    ensures OxygenConsumedMoles(before, after, flush, seed)[i].Nan?
        <==> IsOne(flush[i]) || (i >= 1 && (before[i].Nan? || after[i - 1].Nan?))
  {
  }

  /** Oxygen consumed is carbon produced with the sign flipped, on every row but the seeded first one. */
  lemma OxygenIsNegatedProduction(before: seq<Cell>, after: seq<Cell>, flush: seq<Cell>, seed: real, i: nat)
    requires |before| == |after| == |flush| && 1 <= i < |before|
    ensures var o := OxygenConsumedMoles(before, after, flush, seed)[i];
      var p := ProducedMoles(before, after, flush, seed)[i];
      o == Mul(p, Val(-1.0))
  {
  }

  /**
   * `carbon_dioxide_produced_moles` on a frame. Unlike the other two it checks its input columns
   * first and raises ValueError when either is missing. The unmasked step column is stored
   * before the flush column is read from the frame, so a missing flush column raises KeyError
   * after the column was written, and a flush column that is the result column itself is the
   * stored step column.
   */
  method CarbonDioxideProducedMoles(df: DataFrame, name: string, nameBefore: string, nameAfter: string,
                                    nameFlush: string, seed: real) returns (r: Result<()>)
    requires df.Valid()
    modifies df
    ensures df.Valid() && df.rows == old(df.rows)
    ensures nameBefore !in old(df.columns) || nameAfter !in old(df.columns) ==>
      r == Err(ValueError("All specified columns must be present in the DataFrame")) && unchanged(df)
    ensures nameBefore in old(df.columns) && nameAfter in old(df.columns) ==>
      var before, after := old(df.columns)[nameBefore], old(df.columns)[nameAfter];
      var stored := old(df.columns)[name := SetFirst(Minus(before, Shift(after)), seed)];
      && df.names == (if name in old(df.names) then old(df.names) else old(df.names) + [name])
      && (nameFlush !in stored ==> r == Err(KeyError(nameFlush)) && df.columns == stored)
      && (nameFlush in stored ==>
            r == Ok(()) && df.columns == old(df.columns)[name := ProducedMoles(before, after, stored[nameFlush], seed)])
  {
    if nameBefore !in df.columns || nameAfter !in df.columns {
      return Err(ValueError("All specified columns must be present in the DataFrame"));
    }
    var before, after := df.columns[nameBefore], df.columns[nameAfter];
    df.SetColumn(name, SetFirst(Minus(before, Shift(after)), seed));
    if nameFlush !in df.columns {
      return Err(KeyError(nameFlush));
    }
    df.SetColumn(name, MaskFlushed(df.columns[name], df.columns[nameFlush]));
    r := Ok(());
  }

  /**
   * With the flush column named as the result column, the mask reads the stored step column: a
   * row is cleared exactly when its own step is 1, the seed of row 0 included.
   */
  lemma ProducedMolesMaskedByItself(before: seq<Cell>, after: seq<Cell>, seed: real)
    requires |before| == |after|
    ensures var step := SetFirst(Minus(before, Shift(after)), seed);
      var r := ProducedMoles(before, after, step, seed);
      forall i | 0 <= i < |r| :: r[i] == if IsOne(step[i]) then Nan else step[i]
  {
  }

  /** A column of defined cells holding the given reals, as the worked examples build them. */
  function DefinedColumn(xs: seq<real>): (r: seq<Cell>)
    ensures |r| == |xs| && forall i | 0 <= i < |xs| :: r[i] == Val(xs[i])
  {
    seq(|xs|, i requires 0 <= i < |xs| => Val(xs[i]))
  }

  /** The worked example: before 0..9, after 9..0, flush [0,0,1,0,1,0,0,0,1,0]. */
  lemma CarbonDioxideExample()
    ensures var before := DefinedColumn([0.0, 1.0, 2.0, 3.0, 4.0, 5.0, 6.0, 7.0, 8.0, 9.0]);
      var after := DefinedColumn([9.0, 8.0, 7.0, 6.0, 5.0, 4.0, 3.0, 2.0, 1.0, 0.0]);
      var flush := DefinedColumn([0.0, 0.0, 1.0, 0.0, 1.0, 0.0, 0.0, 0.0, 1.0, 0.0]);
      && ProducedMoles(before, after, flush, 0.0)
         == [Val(0.0), Val(-8.0), Nan, Val(-4.0), Nan, Val(0.0), Val(2.0), Val(4.0), Nan, Val(8.0)]
      && OxygenConsumedMoles(before, after, flush, 0.0)
         == [Val(0.0), Val(8.0), Nan, Val(4.0), Nan, Val(0.0), Val(-2.0), Val(-4.0), Nan, Val(-8.0)]
  {
  }

  /** The first rows of the total-carbon example: an undefined flush on row 0 does not mask the seed. */
  lemma TotalCarbonExample()
    ensures ProducedMoles([Val(0.0000132), Val(0.000621), Val(0.000976), Val(0.000331)],
                          [Val(0.0000132), Val(0.000620), Val(0.000974), Val(0.000325)],
                          [Nan, Val(0.0), Val(0.0), Val(1.0)], 0.0)
         == [Val(0.0), Val(0.0006078), Val(0.000356), Nan]
  {
  }
}
