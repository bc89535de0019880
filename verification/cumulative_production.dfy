/**
 * CumulativeProductionGasPhase: folding the per-step amounts into a running total that survives
 * flushes. A flushed row has no total of its own, and the next unflushed row adds its step to
 * the total of the last unflushed row before it (or to the seeded first row).
 */
module CumulativeProductionGasPhase {
  import opened Series
  import opened Outcomes
  import opened Frame
  import opened MolesProduced

  // ---------------------------------------------------------------------------------------------
  // Specification of cumulative_operation

  /**
   * The row the total of row `i` builds on: the last row before `i` whose flush is 0, or row 0
   * when there is none. This is `last_non_flush_index` when the loop reaches row `i`.
   */
  function Base(flush: seq<Cell>, i: nat): (b: nat)
    requires 1 <= i <= |flush|
    ensures b < i
    ensures b == 0 || IsZero(flush[b])
    ensures forall j | b < j < i :: !IsZero(flush[j])
    decreases i
  {
    if i == 1 then 0
    else if IsZero(flush[i - 1]) then i - 1
    else Base(flush, i - 1)
  }

  /**
   * The cumulative total of row `i`: row 0 holds the seed whatever its flush value; a row with
   * flush 0 adds its step to the total of its base row; every other row is undefined.
   */
  function CumulativeAt(delta: seq<Cell>, flush: seq<Cell>, seed: real, i: nat): Cell
    requires |delta| == |flush| && i < |flush|
    decreases i
  {
    if i == 0 then Val(seed)
    else if IsZero(flush[i]) then Add(CumulativeAt(delta, flush, seed, Base(flush, i)), delta[i])
    else Nan
  }

  /** The whole cumulative column. */
  function Cumulative(delta: seq<Cell>, flush: seq<Cell>, seed: real): (r: seq<Cell>)
    requires |delta| == |flush|
    ensures |r| == |flush|
    ensures forall i | 0 <= i < |r| :: r[i] == CumulativeAt(delta, flush, seed, i)
  {
    seq(|flush|, i requires 0 <= i < |flush| => CumulativeAt(delta, flush, seed, i))
  }

  /** The rows (from 1, below `n`) whose flush is neither 0 nor 1, in ascending order: each one raises a warning. */
  function UnknownFlushRows(flush: seq<Cell>, n: nat): seq<nat>
    requires n <= |flush|
    decreases n
  {
    if n <= 1 then []
    else UnknownFlushRows(flush, n - 1) + (if !IsZero(flush[n - 1]) && !IsOne(flush[n - 1]) then [n - 1] else [])
  }

  // ---------------------------------------------------------------------------------------------
  // The operation on a frame

  /** Some row from 1 on has flush 0: the loop reads a step there. */
  predicate HasZeroFlush(flush: seq<Cell>) {
    exists i | 1 <= i < |flush| :: IsZero(flush[i])
  }

  /** The column `cumulative_operation` stores before its loop: NaN, with the seed in row 0. */
  function InitialColumn(n: nat, seed: real): (r: seq<Cell>)
    ensures |r| == n
    ensures n > 0 ==> r[0] == Val(seed)
    ensures forall i | 1 <= i < n :: r[i].Nan?
  {
    SetFirst(Nans(n), seed)
  }

  /**
   * The loop of `cumulative_operation` over the frame's columns `cols`: rows 1.. are visited in
   * order, the flush cell and the step cell of a row are read from `cols` when the row is reached,
   * and the cumulative cell of the row is written into `cols` after that, building on the cell of
   * the last row whose flush was 0. Returns the finished result column and the warning rows.
   * The result column must already hold `InitialColumn`; since a row is read before it is
   * written, an input that is the result column itself reads its initial cells.
   * A missing step column raises KeyError at the first row with flush 0, and not at all when
   * there is none; the cells written before that are NaN over NaN, so the column is unchanged.
   */
  method CumulativeLoop(cols: map<string, seq<Cell>>, nameCum: string, nameDelta: string, nameFlush: string, seed: real)
    returns (r: Result<(seq<Cell>, seq<nat>)>)
    requires nameCum in cols && nameFlush in cols && |cols[nameFlush]| == |cols[nameCum]|
    requires nameDelta in cols ==> |cols[nameDelta]| == |cols[nameCum]|
    requires cols[nameCum] == InitialColumn(|cols[nameCum]|, seed)
    ensures nameDelta in cols ==>
      var delta, flush := cols[nameDelta], cols[nameFlush];
      r == Ok((Cumulative(delta, flush, seed), UnknownFlushRows(flush, |flush|)))
    ensures nameDelta !in cols ==>
      var flush := cols[nameFlush];
      r == if HasZeroFlush(flush) then Err(KeyError(nameDelta)) else Ok((cols[nameCum], UnknownFlushRows(flush, |flush|)))
  {
    var n := |cols[nameCum]|;
    ghost var start := cols;
    ghost var flush := start[nameFlush];
    ghost var delta := if nameDelta in start then start[nameDelta] else Nans(n);
    var warnings := [];
    var cum := cols[nameCum];
    if n == 0 {
      assert cum == [] == Cumulative(delta, flush, seed);
      return Ok((cum, warnings));
    }
    var lastNonFlush := 0;
    var i := 1;
    while i < n
      invariant 1 <= i <= n && |cum| == n
      invariant lastNonFlush == Base(flush, i)
      invariant forall j | 0 <= j < i :: cum[j] == CumulativeAt(delta, flush, seed, j)
      invariant forall j | i <= j < n :: cum[j] == Nan
      invariant warnings == UnknownFlushRows(flush, i)
      invariant nameDelta !in start ==> forall j | 1 <= j < i :: !IsZero(flush[j])
    {
      var current := cols[nameCum := cum];  // the frame's columns as the loop has left them
      ReadAfterStore(start, nameCum, cum, nameFlush, i);
      var f := current[nameFlush][i];
      if IsZero(f) {
        if nameDelta !in current {
          NoZeroFlushKeepsInitial(delta, flush, seed, cum, i);
          return Err(KeyError(nameDelta));
        }
        ReadAfterStore(start, nameCum, cum, nameDelta, i);
        var d := current[nameDelta][i];
        cum := cum[i := Add(cum[lastNonFlush], d)];
        lastNonFlush := i;
      } else if IsOne(f) {
        cum := cum[i := Nan];
      } else {
        warnings := warnings + [i];
      }
      i := i + 1;
    }
    assert cum == Cumulative(delta, flush, seed);
    if nameDelta !in start {
      NoZeroFlushKeepsInitial(delta, flush, seed, cum, n);
    }
    r := Ok((cum, warnings));
  }

  /**
   * `cumulative_operation` on a frame: the initial column is stored under `nameCum` first; with
   * fewer than two rows the loop does not run and nothing else is read. Otherwise the flush
   * column is read at row 1, so a missing one raises KeyError, and the loop runs over the frame
   * as it is after the store; its result column is stored and the warning rows are returned.
   */
  method CumulativeOperation(df: DataFrame, nameCum: string, nameDelta: string, nameFlush: string, seed: real)
    returns (r: Result<seq<nat>>)
    requires df.Valid()
    modifies df
    ensures df.Valid() && df.rows == old(df.rows)
    ensures df.names == if nameCum in old(df.names) then old(df.names) else old(df.names) + [nameCum]
    ensures var stored := old(df.columns)[nameCum := InitialColumn(old(df.rows), seed)];
      && (old(df.rows) < 2 ==> r == Ok([]) && df.columns == stored)
      && (old(df.rows) >= 2 && nameFlush !in stored ==> r == Err(KeyError(nameFlush)) && df.columns == stored)
      && (old(df.rows) >= 2 && nameFlush in stored && nameDelta in stored ==>
            && r == Ok(UnknownFlushRows(stored[nameFlush], old(df.rows)))
            && df.columns == stored[nameCum := Cumulative(stored[nameDelta], stored[nameFlush], seed)])
      && (old(df.rows) >= 2 && nameFlush in stored && nameDelta !in stored ==>
            && df.columns == stored
            && r == if HasZeroFlush(stored[nameFlush]) then Err(KeyError(nameDelta))
                    else Ok(UnknownFlushRows(stored[nameFlush], old(df.rows))))
  {
    df.SetColumn(nameCum, InitialColumn(df.rows, seed));
    if df.rows < 2 {
      return Ok([]);
    }
    if nameFlush !in df.columns {
      return Err(KeyError(nameFlush));
    }
    var outcome := CumulativeLoop(df.columns, nameCum, nameDelta, nameFlush, seed);
    if outcome.Err? {
      return Err(outcome.error);
    }
    df.SetColumn(nameCum, outcome.value.0);
    r := Ok(outcome.value.1);
  }

  /**
   * A cell of row `i` of any column, read after the result column was stored and its rows
   * below `i` were written, is the cell the column held right after the store.
   */
  lemma ReadAfterStore(start: map<string, seq<Cell>>, nameCum: string, cum: seq<Cell>, name: string, i: nat)
    requires nameCum in start && name in start && 1 <= i < |cum| == |start[nameCum]| && cum[i].Nan?
    requires start[nameCum][i].Nan?
    ensures start[nameCum := cum][name] == (if name == nameCum then cum else start[name])
    ensures i < |start[name]| ==> start[nameCum := cum][name][i] == start[name][i]
  {
  }

  /** Before the first row with flush 0 the loop has written only NaN over NaN. */
  lemma NoZeroFlushKeepsInitial(delta: seq<Cell>, flush: seq<Cell>, seed: real, cum: seq<Cell>, i: nat)
    requires |delta| == |flush| == |cum| && 1 <= i <= |cum|
    requires forall j | 1 <= j < i :: !IsZero(flush[j])
    requires forall j | 0 <= j < i :: cum[j] == CumulativeAt(delta, flush, seed, j)
    requires forall j | i <= j < |cum| :: cum[j] == Nan
    ensures cum == InitialColumn(|cum|, seed)
  {
  }

  /**
   * When the flush column is the result column itself, every flush cell the loop reads from row 1
   * on is the initial NaN: no row is 0 or 1, so every later row raises a warning and the column
   * keeps its initial value.
   */
  lemma {:induction false} CumulativeOverOwnFlush(delta: seq<Cell>, seed: real, n: nat)
    requires |delta| == n
    ensures Cumulative(delta, InitialColumn(n, seed), seed) == InitialColumn(n, seed)
    ensures UnknownFlushRows(InitialColumn(n, seed), n) == seq(if n == 0 then 0 else n - 1, k => k + 1)
    decreases n
  {
    var flush := InitialColumn(n, seed);
    CumulativeRows(delta, flush, seed);
    assert Cumulative(delta, flush, seed) == flush;
    if n > 1 {
      var shorter := InitialColumn(n - 1, seed);
      CumulativeOverOwnFlush(delta[..n - 1], seed, n - 1);
      assert flush[..n - 1] == shorter[..n - 1];
      UnknownFlushRowsPrefix(flush, shorter, n - 1);
      assert seq(n - 2, k => k + 1) + [n - 1] == seq(n - 1, k => k + 1);
    }
  }

  /** Warnings up to row n depend only on the first n flush cells. */
  lemma {:induction false} UnknownFlushRowsPrefix(a: seq<Cell>, b: seq<Cell>, n: nat)
    requires n <= |a| && n <= |b| && a[..n] == b[..n]
    ensures UnknownFlushRows(a, n) == UnknownFlushRows(b, n)
    decreases n
  {
    if n > 1 {
      assert a[n - 1] == a[..n][n - 1] == b[..n][n - 1] == b[n - 1];
      assert a[..n - 1] == a[..n][..n - 1];
      assert b[..n - 1] == b[..n][..n - 1];
      UnknownFlushRowsPrefix(a, b, n - 1);
    }
  }

  /**
   * When the step column is the result column itself, the step read at a row with flush 0 is the
   * initial NaN, so every row from 1 on stays undefined.
   */
  lemma CumulativeOverOwnSteps(flush: seq<Cell>, seed: real)
    ensures Cumulative(InitialColumn(|flush|, seed), flush, seed) == InitialColumn(|flush|, seed)
  {
  }

  // ---------------------------------------------------------------------------------------------
  // Properties of the fold

  /** Row 0 holds the seed whatever its flush; every later row whose flush is not 0 is undefined. */
  lemma CumulativeRows(delta: seq<Cell>, flush: seq<Cell>, seed: real)
    requires |delta| == |flush|
    ensures |flush| > 0 ==> Cumulative(delta, flush, seed)[0] == Val(seed)
    ensures forall i | 1 <= i < |flush| && !IsZero(flush[i]) :: Cumulative(delta, flush, seed)[i] == Nan
  {
  }

  /** A row is flagged with a warning exactly when it is a later row with a flush value other than 0 or 1. */
  lemma {:induction false} UnknownFlushRowsSpec(flush: seq<Cell>, n: nat)
    requires n <= |flush|
    ensures forall k :: k in UnknownFlushRows(flush, n) <==> 1 <= k < n && !IsZero(flush[k]) && !IsOne(flush[k])
    decreases n
  {
    if n > 1 {
      UnknownFlushRowsSpec(flush, n - 1);
    }
  }

  /** The warnings come in ascending row order, each row once. */
  lemma {:induction false} UnknownFlushRowsAscending(flush: seq<Cell>, n: nat)
    requires n <= |flush|
    ensures forall a, b | 0 <= a < b < |UnknownFlushRows(flush, n)| :: UnknownFlushRows(flush, n)[a] < UnknownFlushRows(flush, n)[b]
    decreases n
  {
    if n > 1 {
      UnknownFlushRowsAscending(flush, n - 1);
      UnknownFlushRowsSpec(flush, n - 1);
      var prev := UnknownFlushRows(flush, n - 1);
      assert forall a | 0 <= a < |prev| :: prev[a] in prev;
    }
  }

  /** The sum of the steps of the rows 1..n-1 whose flush is 0 (undefined steps count as 0). */
  function NonFlushSum(delta: seq<Cell>, flush: seq<Cell>, n: nat): real
    requires |delta| == |flush| && n <= |flush|
    decreases n
  {
    if n <= 1 then 0.0
    else NonFlushSum(delta, flush, n - 1) + (if IsZero(flush[n - 1]) then ValueOr0(delta[n - 1]) else 0.0)
  }

  /** Rows without flush 0 add nothing to the sum. */
  lemma {:induction false} NonFlushSumSkips(delta: seq<Cell>, flush: seq<Cell>, b: nat, n: nat)
    requires |delta| == |flush| && b < n <= |flush|
    requires forall j | b < j < n :: !IsZero(flush[j])
    ensures NonFlushSum(delta, flush, n) == NonFlushSum(delta, flush, b + 1)
    decreases n
  {
    if n > b + 1 {
      NonFlushSumSkips(delta, flush, b, n - 1);
    }
  }

  /**
   * Closed form: when the step of every row with flush 0 is defined, the total of row 0 and of
   * every row with flush 0 is the seed plus the steps of all rows up to it with flush 0.
   */
  lemma {:induction false} CumulativeClosedForm(delta: seq<Cell>, flush: seq<Cell>, seed: real, i: nat)
    requires |delta| == |flush| && i < |flush|
    requires forall j | 1 <= j < |flush| && IsZero(flush[j]) :: delta[j].Val?
    requires i == 0 || IsZero(flush[i])
    ensures CumulativeAt(delta, flush, seed, i) == Val(seed + NonFlushSum(delta, flush, i + 1))
    decreases i
  {
    if i > 0 {
      var b := Base(flush, i);
      CumulativeClosedForm(delta, flush, seed, b);
      NonFlushSumSkips(delta, flush, b, i);
    }
  }

  /** With non-negative steps, the totals of the unflushed rows never decrease. */
  lemma {:induction false} CumulativeMonotone(delta: seq<Cell>, flush: seq<Cell>, seed: real, j: nat, i: nat)
    requires |delta| == |flush| && j <= i < |flush|
    requires forall k | 1 <= k < |flush| && IsZero(flush[k]) :: delta[k].Val? && delta[k].x >= 0.0
    requires j == 0 || IsZero(flush[j])
    requires i == 0 || IsZero(flush[i])
    ensures CumulativeAt(delta, flush, seed, j).Val? && CumulativeAt(delta, flush, seed, i).Val?
    ensures CumulativeAt(delta, flush, seed, j).x <= CumulativeAt(delta, flush, seed, i).x
  {
    CumulativeClosedForm(delta, flush, seed, j);
    CumulativeClosedForm(delta, flush, seed, i);
    NonFlushSumGrows(delta, flush, j + 1, i + 1);
  }

  lemma {:induction false} NonFlushSumGrows(delta: seq<Cell>, flush: seq<Cell>, m: nat, n: nat)
    requires |delta| == |flush| && m <= n <= |flush|
    requires forall k | 1 <= k < |flush| && IsZero(flush[k]) :: delta[k].Val? && delta[k].x >= 0.0
    ensures NonFlushSum(delta, flush, m) <= NonFlushSum(delta, flush, n)
    decreases n
  {
    if n > m {
      NonFlushSumGrows(delta, flush, m, n - 1);
    }
  }

  /** Only the steps of rows with flush 0 are read: the steps of every other row do not matter. */
  lemma {:induction false} CumulativeIgnoresFlushedSteps(delta: seq<Cell>, other: seq<Cell>, flush: seq<Cell>, seed: real, i: nat)
    requires |delta| == |other| == |flush| && i < |flush|
    requires forall j | 1 <= j < |flush| && IsZero(flush[j]) :: delta[j] == other[j]
    ensures CumulativeAt(delta, flush, seed, i) == CumulativeAt(other, flush, seed, i)
    decreases i
  {
    if i > 0 && IsZero(flush[i]) {
      CumulativeIgnoresFlushedSteps(delta, other, flush, seed, Base(flush, i));
    }
  }

  /** An undefined step on an unflushed row makes the total of that row and of every later unflushed row undefined. */
  lemma {:induction false} CumulativeNanPropagates(delta: seq<Cell>, flush: seq<Cell>, seed: real, k: nat, i: nat)
    requires |delta| == |flush| && 1 <= k <= i < |flush|
    requires IsZero(flush[k]) && delta[k] == Nan
    requires IsZero(flush[i])
    ensures CumulativeAt(delta, flush, seed, i) == Nan
    decreases i
  {
    if i > k {
      var b := Base(flush, i);
      assert k <= b;
      CumulativeNanPropagates(delta, flush, seed, k, b);
    }
  }

  /**
   * Feeding the fold with `ProducedMoles`: its seed and its flush mask do not matter, because the
   * fold reads only the steps of later rows with flush 0, where they are before[i] - after[i - 1].
   */
  lemma CumulativeOfProducedMoles(before: seq<Cell>, after: seq<Cell>, flush: seq<Cell>, stepSeed: real, seed: real)
    requires |before| == |after| == |flush|
    ensures Cumulative(ProducedMoles(before, after, flush, stepSeed), flush, seed)
         == Cumulative(Minus(before, Shift(after)), flush, seed)
  {
    var p, d := ProducedMoles(before, after, flush, stepSeed), Minus(before, Shift(after));
    forall i | 0 <= i < |flush|
      ensures CumulativeAt(p, flush, seed, i) == CumulativeAt(d, flush, seed, i)
    {
      CumulativeIgnoresFlushedSteps(p, d, flush, seed, i);
    }
  }

  /** The worked example: steps [0, 2, NaN, 4, NaN] with flush [0, 0, 1, 0, 1] give [0, 2, NaN, 6, NaN]. */
  lemma CumulativeExample()
    ensures Cumulative([Val(0.0), Val(2.0), Nan, Val(4.0), Nan],
                       [Val(0.0), Val(0.0), Val(1.0), Val(0.0), Val(1.0)], 0.0)
         == [Val(0.0), Val(2.0), Nan, Val(6.0), Nan]
  {
    var delta, flush := [Val(0.0), Val(2.0), Nan, Val(4.0), Nan], [Val(0.0), Val(0.0), Val(1.0), Val(0.0), Val(1.0)];
    assert Base(flush, 1) == 0 && Base(flush, 3) == 1;
  }

  // ---------------------------------------------------------------------------------------------
  // carbon_gas_dry_mass_cumulative

  /**
   * `carbon_gas_dry_mass_cumulative`: the cumulative moles of an unflushed row turned into mg
   * carbon per g dry weight (times molar mass * 1000 / dry mass); every other row undefined; row 0
   * overwritten with the seed. A zero dry mass raises ZeroDivisionError.
   */
  function CarbonGasDryMassCumulative(cum: seq<Cell>, flush: seq<Cell>, molarMass: real, dryMass: real, seed: real)
    : (r: Result<seq<Cell>>)
    requires |cum| == |flush|
    ensures r.Err? <==> dryMass == 0.0
    ensures r.Err? ==> r.error == ZeroDivisionError
    ensures r.Ok? ==> |r.value| == |cum| && forall i | 0 <= i < |cum| ::
      r.value[i] == if i == 0 then Val(seed)
                    else if IsZero(flush[i]) then Mul(cum[i], Val(molarMass * (1000.0 / dryMass)))
                    else Nan
  {
    if dryMass == 0.0 then Err(ZeroDivisionError)
    else Ok(SetFirst(WhereNotFlushed(Scale(cum, molarMass * (1000.0 / dryMass)), flush), seed))
  }

  /** A defined dry-mass value times the dry mass is the carbon mass in mg: cum * molar mass * 1000. */
  lemma CarbonGasDryMassIsMassPerDryWeight(cum: seq<Cell>, flush: seq<Cell>, molarMass: real, dryMass: real, seed: real, i: nat)
    requires |cum| == |flush| && 1 <= i < |cum| && dryMass != 0.0
    requires IsZero(flush[i]) && cum[i].Val?
    ensures var r := CarbonGasDryMassCumulative(cum, flush, molarMass, dryMass, seed).value[i];
      r.Val? && r.x * dryMass == cum[i].x * molarMass * 1000.0
  {
    var k := 1000.0 / dryMass;
    assert k * dryMass == 1000.0;
    assert cum[i].x * (molarMass * k) * dryMass == cum[i].x * molarMass * (k * dryMass);
  }

  /** The worked example: molar mass 12.01, dry mass 2.0, cumulative 10..60, flush [0,1,0,0,1,0]. */
  lemma CarbonGasDryMassExample()
    ensures CarbonGasDryMassCumulative([Val(10.0), Val(20.0), Val(30.0), Val(40.0), Val(50.0), Val(60.0)],
                                       [Val(0.0), Val(1.0), Val(0.0), Val(0.0), Val(1.0), Val(0.0)], 12.01, 2.0, 0.0)
         == Ok([Val(0.0), Nan, Val(180150.0), Val(240200.0), Nan, Val(360300.0)])
  {
    var cum := [Val(10.0), Val(20.0), Val(30.0), Val(40.0), Val(50.0), Val(60.0)];
    var flush := [Val(0.0), Val(1.0), Val(0.0), Val(0.0), Val(1.0), Val(0.0)];
    var r := CarbonGasDryMassCumulative(cum, flush, 12.01, 2.0, 0.0).value;
    assert 12.01 * (1000.0 / 2.0) == 6005.0;
    assert r[2] == Val(180150.0) && r[3] == Val(240200.0) && r[5] == Val(360300.0);
    assert r == [Val(0.0), Nan, Val(180150.0), Val(240200.0), Nan, Val(360300.0)];
  }
}
