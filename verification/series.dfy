/**
 * One float64 column of a pandas frame, with NaN as an explicit undefined cell, and the
 * vectorised column operations the calculation stages are built from.
 */
module Series {

  /** A float64 cell: NaN (undefined) or a real value. */
  datatype Cell = Nan | Val(x: real)

  function Add(a: Cell, b: Cell): Cell {
    if a.Val? && b.Val? then Val(a.x + b.x) else Nan
  }

  function Sub(a: Cell, b: Cell): Cell {
    if a.Val? && b.Val? then Val(a.x - b.x) else Nan
  }

  function Mul(a: Cell, b: Cell): Cell {
    if a.Val? && b.Val? then Val(a.x * b.x) else Nan
  }

  /** Division; a zero divisor yields Nan (IEEE infinities are not modelled). */
  function Div(a: Cell, b: Cell): Cell {
    if a.Val? && b.Val? && b.x != 0.0 then Val(a.x / b.x) else Nan
  }

  /** The pandas comparison `flush == 0` (false for NaN). */
  predicate IsZero(c: Cell) {
    c == Val(0.0)
  }

  /** The pandas comparison `flush == 1` (false for NaN). */
  predicate IsOne(c: Cell) {
    c == Val(1.0)
  }

  /** The value of a defined cell, 0 for NaN; used only where definedness is known. */
  function ValueOr0(c: Cell): real {
    if c.Val? then c.x else 0.0
  }

  /** `column * k` for a scalar k. */
  function Scale(col: seq<Cell>, k: real): (r: seq<Cell>)
    ensures |r| == |col|
    ensures forall i | 0 <= i < |r| :: r[i] == Mul(col[i], Val(k))
  {
    seq(|col|, i requires 0 <= i < |col| => Mul(col[i], Val(k)))
  }

  /** `a + b`, element-wise. */
  function Plus(a: seq<Cell>, b: seq<Cell>): (r: seq<Cell>)
    requires |a| == |b|
    ensures |r| == |a|
    ensures forall i | 0 <= i < |r| :: r[i] == Add(a[i], b[i])
  {
    seq(|a|, i requires 0 <= i < |a| => Add(a[i], b[i]))
  }

  /** `a - b`, element-wise. */
  function Minus(a: seq<Cell>, b: seq<Cell>): (r: seq<Cell>)
    requires |a| == |b|
    ensures |r| == |a|
    ensures forall i | 0 <= i < |r| :: r[i] == Sub(a[i], b[i])
  {
    seq(|a|, i requires 0 <= i < |a| => Sub(a[i], b[i]))
  }

  /** `a * b`, element-wise. */
  function Times(a: seq<Cell>, b: seq<Cell>): (r: seq<Cell>)
    requires |a| == |b|
    ensures |r| == |a|
    ensures forall i | 0 <= i < |r| :: r[i] == Mul(a[i], b[i])
  {
    seq(|a|, i requires 0 <= i < |a| => Mul(a[i], b[i]))
  }

  /** `a / b`, element-wise. */
  function Divide(a: seq<Cell>, b: seq<Cell>): (r: seq<Cell>)
    requires |a| == |b|
    ensures |r| == |a|
    ensures forall i | 0 <= i < |r| :: r[i] == Div(a[i], b[i])
  {
    seq(|a|, i requires 0 <= i < |a| => Div(a[i], b[i]))
  }

  /** `column.shift(1)`: every value moves one row down and row 0 becomes NaN. */
  function Shift(col: seq<Cell>): (r: seq<Cell>)
    ensures |r| == |col|
    ensures |r| > 0 ==> r[0] == Nan
    ensures forall i | 1 <= i < |r| :: r[i] == col[i - 1]
  {
    if col == [] then [] else [Nan] + col[..|col| - 1]
  }

  /** A column of n NaN cells, as `data_frame[name] = np.nan` creates. */
  function Nans(n: nat): (r: seq<Cell>)
    ensures |r| == n
    ensures forall i | 0 <= i < n :: r[i] == Nan
  {
    seq(n, _ => Nan)
  }

  /** `column.at[0] = v`: row 0 set when it exists. */
  function SetFirst(col: seq<Cell>, v: real): (r: seq<Cell>)
    ensures |r| == |col|
    ensures |r| > 0 ==> r[0] == Val(v)
    ensures forall i | 1 <= i < |r| :: r[i] == col[i]
  {
    if col == [] then [] else col[0 := Val(v)]
  }

  /** `data_frame.loc[flush == 1, name] = np.nan`. */
  function MaskFlushed(col: seq<Cell>, flush: seq<Cell>): (r: seq<Cell>)
    requires |col| == |flush|
    ensures |r| == |col|
    ensures forall i | 0 <= i < |r| :: r[i] == if IsOne(flush[i]) then Nan else col[i]
  {
    seq(|col|, i requires 0 <= i < |col| => if IsOne(flush[i]) then Nan else col[i])
  }

  /** `np.where(flush == 0, col, np.nan)`. */
  function WhereNotFlushed(col: seq<Cell>, flush: seq<Cell>): (r: seq<Cell>)
    requires |col| == |flush|
    ensures |r| == |col|
    ensures forall i | 0 <= i < |r| :: r[i] == if IsZero(flush[i]) then col[i] else Nan
  {
    seq(|col|, i requires 0 <= i < |col| => if IsZero(flush[i]) then col[i] else Nan)
  }
}
