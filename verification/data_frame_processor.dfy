/** The two table helpers of DataFrameProcessor: filling NaN cells and moving a column. */
module DataFrameProcessor {
  import opened Series
  import opened Outcomes
  import opened Frame

  /** `column.fillna(value)`: every NaN cell becomes `value`, every other cell is kept. */
  function FillNan(col: seq<Cell>, value: real): (r: seq<Cell>)
    ensures |r| == |col|
    ensures forall i | 0 <= i < |r| :: r[i].Val?
    ensures forall i | 0 <= i < |r| && col[i].Val? :: r[i] == col[i]
    ensures forall i | 0 <= i < |r| && col[i].Nan? :: r[i] == Val(value)
  {
    seq(|col|, i requires 0 <= i < |col| => if col[i].Nan? then Val(value) else col[i])
  }

  /** Filling is idempotent: a second fill, with any value, finds nothing to fill. */
  lemma FillNanIdempotent(col: seq<Cell>, value: real, again: real)
    ensures FillNan(FillNan(col, value), again) == FillNan(col, value)
  {
    var once := FillNan(col, value);
    assert forall i | 0 <= i < |col| :: once[i].Val?;
  }

  /** `fill_nan_values`: the named column is replaced by its filled copy; KeyError when missing. */
  method FillNanValues(df: DataFrame, name: string, value: real) returns (r: Result<()>)
    requires df.Valid()
    modifies df
    ensures df.Valid() && df.rows == old(df.rows) && df.names == old(df.names)
    ensures name !in old(df.columns) ==> r == Err(KeyError(name)) && df.columns == old(df.columns)
    ensures name in old(df.columns) ==>
      r == Ok(()) && df.columns == old(df.columns)[name := FillNan(old(df.columns)[name], value)]
  {
    if name !in df.columns {
      return Err(KeyError(name));
    }
    df.SetColumn(name, FillNan(df.columns[name], value));
    r := Ok(());
  }

  /**
   * The column order after `replace_position_column`: `moved` is popped, and re-inserted at the
   * position `target` has among the remaining columns, so that it stands immediately left of it.
   */
  function MoveColumn(names: seq<string>, moved: string, target: string): (r: Result<seq<string>>)
  {
    match IndexOf(names, moved)
    case None => Err(KeyError(moved))
    case Some(k) =>
      var rest := RemoveAt(names, k);
      match IndexOf(rest, target)
      case None => Err(KeyError(target))
      case Some(p) => Ok(InsertAt(rest, p, moved))
  }

  /** The two failures: the moved column is missing (at `pop`), or the target is missing from what remains (at `get_loc`). */
  lemma MoveColumnFails(names: seq<string>, moved: string, target: string)
    requires Distinct(names)
    ensures moved !in names ==> MoveColumn(names, moved, target) == Err(KeyError(moved))
    ensures moved in names && (target !in names || target == moved) ==>
      MoveColumn(names, moved, target) == Err(KeyError(target))
    ensures MoveColumn(names, moved, target).Ok? <==> moved in names && target in names && moved != target
  {
    if moved in names {
      var k := IndexOf(names, moved).value;
      WithoutDistinct(names, moved, k);
    }
  }

  /** A successful move keeps the set of columns, each once: the new order is a permutation of the old one. */
  lemma MoveColumnPermutes(names: seq<string>, moved: string, target: string)
    requires Distinct(names)
    requires MoveColumn(names, moved, target).Ok?
    ensures multiset(MoveColumn(names, moved, target).value) == multiset(names)
    ensures Distinct(MoveColumn(names, moved, target).value)
  {
    var k := IndexOf(names, moved).value;
    var p := IndexOf(RemoveAt(names, k), target).value;
    RemoveInsertPermutes(names, k, p);
  }

  lemma RemoveInsertPermutes<T>(names: seq<T>, k: nat, p: nat)
    requires Distinct(names) && k < |names| && p < |names|
    ensures multiset(InsertAt(RemoveAt(names, k), p, names[k])) == multiset(names)
    ensures Distinct(InsertAt(RemoveAt(names, k), p, names[k]))
  {
    DistinctRemove(names, k);
    RemovedIsGone(names, k);
    InsertPermutes(RemoveAt(names, k), p, names[k]);
    RemoveMultiset(names, k);
  }

  lemma RemovedIsGone<T>(names: seq<T>, k: nat)
    requires Distinct(names) && k < |names|
    ensures names[k] !in RemoveAt(names, k)
  {
    var rest := RemoveAt(names, k);
    assert forall i | 0 <= i < |rest| :: rest[i] == names[if i < k then i else i + 1];
  }

  lemma RemoveMultiset<T>(names: seq<T>, k: nat)
    requires k < |names|
    ensures multiset(RemoveAt(names, k)) + multiset{names[k]} == multiset(names)
  {
    assert names == names[..k] + [names[k]] + names[k + 1..];
  }

  /** A successful move places `moved` immediately left of `target`. */
  lemma MoveColumnAdjacent(names: seq<string>, moved: string, target: string)
    requires MoveColumn(names, moved, target).Ok?
    ensures var r := MoveColumn(names, moved, target).value;
      exists p :: 0 <= p < |r| - 1 && r[p] == moved && r[p + 1] == target
  {
    var k := IndexOf(names, moved).value;
    var rest := RemoveAt(names, k);
    var p := IndexOf(rest, target).value;
    var r := InsertAt(rest, p, moved);
    assert r[p] == moved && r[p + 1] == target;
  }

  /** A successful move keeps the relative order of all the other columns. */
  lemma MoveColumnKeepsOrder(names: seq<string>, moved: string, target: string)
    requires Distinct(names)
    requires MoveColumn(names, moved, target).Ok?
    ensures Without(MoveColumn(names, moved, target).value, moved) == Without(names, moved)
  {
    var k := IndexOf(names, moved).value;
    var rest := RemoveAt(names, k);
    WithoutDistinct(names, moved, k);
    var p := IndexOf(rest, target).value;
    InsertKeepsOthers(rest, p, moved);
  }

  lemma InsertPermutes<T>(rest: seq<T>, p: nat, x: T)
    requires Distinct(rest) && x !in rest && p <= |rest|
    ensures multiset(InsertAt(rest, p, x)) == multiset(rest) + multiset{x}
    ensures Distinct(InsertAt(rest, p, x))
  {
    var r := InsertAt(rest, p, x);
    assert rest == rest[..p] + rest[p..];
    forall i, j | 0 <= i < j < |r| ensures r[i] != r[j] {
      if i == p {
        assert r[j] in rest;
      } else if j == p {
        assert r[i] in rest;
      } else {
        var i' := if i < p then i else i - 1;
        var j' := if j < p then j else j - 1;
        assert r[i] == rest[i'] && r[j] == rest[j'];
      }
    }
  }

  lemma InsertKeepsOthers<T>(rest: seq<T>, p: nat, x: T)
    requires x !in rest && p <= |rest|
    ensures Without(InsertAt(rest, p, x), x) == rest
  {
    var a, b := rest[..p], rest[p..];
    assert rest == a + b;
    calc {
      Without(a + [x] + b, x);
      { WithoutConcat(a + [x], b, x); }
      Without(a + [x], x) + Without(b, x);
      { WithoutConcat(a, [x], x); }
      Without(a, x) + Without([x], x) + Without(b, x);
      { assert x !in a && x !in b; WithoutAbsent(a, x); WithoutAbsent(b, x); assert [x][1..] == []; }
      a + [] + b;
      rest;
    }
  }

  lemma {:induction false} WithoutConcat<T>(a: seq<T>, b: seq<T>, name: T)
    ensures Without(a + b, name) == Without(a, name) + Without(b, name)
  {
    if a != [] {
      WithoutConcat(a[1..], b, name);
      assert (a + b)[1..] == a[1..] + b;
    } else {
      assert a + b == b;
    }
  }

  /**
   * `replace_position_column` on a frame. When the target is missing after the pop, the error is
   * raised with the moved column already gone from the frame.
   */
  method ReplacePositionColumn(df: DataFrame, moved: string, target: string) returns (r: Result<()>)
    requires df.Valid()
    modifies df
    ensures df.Valid() && df.rows == old(df.rows)
    ensures moved !in old(df.names) ==> r == Err(KeyError(moved)) && unchanged(df)
    ensures moved in old(df.names) && (target !in old(df.names) || target == moved) ==>
      && r == Err(KeyError(target))
      && df.columns == old(df.columns) - {moved}
      && df.names == Without(old(df.names), moved)
    ensures MoveColumn(old(df.names), moved, target).Ok? ==>
      && r == Ok(())
      && df.names == MoveColumn(old(df.names), moved, target).value
      && df.columns == old(df.columns)
  {
    ghost var oldNames, oldColumns := df.names, df.columns;
    var popped := df.Pop(moved);
    if popped.Err? {
      MoveColumnFails(oldNames, moved, target);
      return Err(popped.error);
    }
    ghost var k := IndexOf(oldNames, moved).value;
    WithoutDistinct(oldNames, moved, k);
    var loc := IndexOf(df.names, target);
    if loc.None? {
      MoveColumnFails(oldNames, moved, target);
      return Err(KeyError(target));
    }
    MoveColumnAt(oldNames, moved, target, k, loc.value);
    df.Insert(loc.value, moved, popped.value);
    r := Ok(());
  }

  lemma MoveColumnAt(names: seq<string>, moved: string, target: string, k: nat, p: nat)
    requires IndexOf(names, moved) == Some(k)
    requires IndexOf(RemoveAt(names, k), target) == Some(p)
    ensures MoveColumn(names, moved, target) == Ok(InsertAt(RemoveAt(names, k), p, moved))
  {
  }
}
