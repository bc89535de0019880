/**
 * ResultsInterpretations: the final per-sampling results, total carbon per dry matter and the
 * ratio of oxygen consumed to carbon dioxide produced.
 */
module ResultsInterpretations {
  import opened Series

  /**
   * `total_carbon_dry_matter`: row 0 holds the seed, every later row the gas-phase carbon plus
   * the dissolved inorganic carbon (both per dry mass), and every row whose flush is 1 (row 0
   * included) is undefined.
   */
  function TotalCarbonDryMatter(flush: seq<Cell>, gasCarbon: seq<Cell>, dic: seq<Cell>, seed: real): (r: seq<Cell>)
    requires |flush| == |gasCarbon| == |dic|
    ensures |r| == |flush|
    ensures forall i | 0 <= i < |r| ::
      r[i] == if IsOne(flush[i]) then Nan else if i == 0 then Val(seed) else Add(gasCarbon[i], dic[i])
  {
    var rest := Plus(gasCarbon, dic);
    var column := seq(|flush|, i requires 0 <= i < |flush| => if i == 0 then Val(seed) else rest[i]);
    MaskFlushed(column, flush)
  }

  /** A later row is defined exactly when it is not flushed and both carbon amounts are defined, and then it is their sum. */
  lemma TotalCarbonDryMatterDefined(flush: seq<Cell>, gasCarbon: seq<Cell>, dic: seq<Cell>, seed: real, i: nat)
    requires |flush| == |gasCarbon| == |dic| && 1 <= i < |flush|
    ensures var t := TotalCarbonDryMatter(flush, gasCarbon, dic, seed)[i];
      && (t.Val? <==> !IsOne(flush[i]) && gasCarbon[i].Val? && dic[i].Val?)
      && (t.Val? ==> t.x == gasCarbon[i].x + dic[i].x)
  {
  }

  /**
   * The worked example, all five rows: an undefined flush on row 0 keeps the seed, and the
   * flushed row 3 is undefined.
   */
  lemma TotalCarbonDryMatterExample()
    ensures TotalCarbonDryMatter([Nan, Val(0.0), Val(0.0), Val(1.0), Val(0.0)],
                                 [Val(0.0), Val(0.0475), Val(0.0753), Nan, Val(0.128)],
                                 [Val(0.00134227422597388), Val(0.0571761179409130), Val(0.0884625449606142),
                                  Val(0.0322569305186437), Val(0.0989660915708090)], 0.0)
         == [Val(0.0), Val(0.104676117940913), Val(0.1637625449606142), Nan, Val(0.226966091570809)]
  {
  }

  /**
   * `ratio_oxygen_consumed_carbon_dioxide_produced`: oxygen consumed over the carbon dioxide
   * produced in gas and water together; row 0 holds the seed; every row whose flush is 1 is
   * undefined. A zero denominator gives an undefined cell here.
   */
  function RatioOxygenCarbonDioxide(o2Consumed: seq<Cell>, co2Gas: seq<Cell>, co2Aqueous: seq<Cell>,
                                    flush: seq<Cell>, seed: real): (r: seq<Cell>)
    requires |o2Consumed| == |co2Gas| == |co2Aqueous| == |flush|
    ensures |r| == |flush|
    ensures forall i | 0 <= i < |r| ::
      r[i] == if IsOne(flush[i]) then Nan else if i == 0 then Val(seed) else Div(o2Consumed[i], Add(co2Gas[i], co2Aqueous[i]))
  {
    MaskFlushed(SetFirst(Divide(o2Consumed, Plus(co2Gas, co2Aqueous)), seed), flush)
  }

  /** Multiplying a defined ratio by the total CO2 produced gives back the oxygen consumed. */
  lemma RatioTimesCarbonDioxide(o2Consumed: seq<Cell>, co2Gas: seq<Cell>, co2Aqueous: seq<Cell>,
                                flush: seq<Cell>, seed: real, i: nat)
    requires |o2Consumed| == |co2Gas| == |co2Aqueous| == |flush| && 1 <= i < |flush|
    requires RatioOxygenCarbonDioxide(o2Consumed, co2Gas, co2Aqueous, flush, seed)[i].Val?
    ensures co2Gas[i].Val? && co2Aqueous[i].Val? && o2Consumed[i].Val?
    ensures RatioOxygenCarbonDioxide(o2Consumed, co2Gas, co2Aqueous, flush, seed)[i].x * (co2Gas[i].x + co2Aqueous[i].x)
         == o2Consumed[i].x
  {
  }

  /** The second row of the worked example gives a ratio of about 6.8085. */
  lemma RatioExample()
    ensures var r := RatioOxygenCarbonDioxide([Val(0.0), Val(0.008816302)], [Val(0.0), Val(0.00056301)],
                                              [Val(0.0), Val(0.000731891404146627)], [Nan, Val(0.0)], 0.0);
      r[0] == Val(0.0) && r[1].Val? && 6.8084 < r[1].x < 6.8085
  {
    var r := RatioOxygenCarbonDioxide([Val(0.0), Val(0.008816302)], [Val(0.0), Val(0.00056301)],
                                      [Val(0.0), Val(0.000731891404146627)], [Nan, Val(0.0)], 0.0);
    assert r[1].x * 0.001294901404146627 == 0.008816302;
  }
}
