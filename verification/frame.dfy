/**
 * The part of a pandas DataFrame the modelled code relies on: an ordered list of uniquely
 * named float64 columns of one common length, with rows labelled 0 .. rows - 1.
 */
module Frame {
  import opened Series
  import opened Outcomes

  /** Position of `name` in `names`, as `columns.get_loc` finds it, or None. */
  function IndexOf<T(==)>(names: seq<T>, name: T): (r: Option<nat>)
    ensures r.None? <==> name !in names
    ensures r.Some? ==> r.value < |names| && names[r.value] == name && name !in names[..r.value]
  {
    if names == [] then None
    else if names[0] == name then Some(0)
    else match IndexOf(names[1..], name)
      case None => None
      case Some(k) => Some(k + 1)
  }

  /** `names` with every occurrence of `name` dropped, the order of the others kept. */
  function Without<T(==)>(names: seq<T>, name: T): (r: seq<T>)
    ensures name !in r
  {
    if names == [] then []
    else (if names[0] == name then [] else [names[0]]) + Without(names[1..], name)
  }

  function RemoveAt<T>(s: seq<T>, k: nat): (r: seq<T>)
    requires k < |s|
    ensures |r| == |s| - 1
  {
    s[..k] + s[k + 1..]
  }

  function InsertAt<T>(s: seq<T>, p: nat, x: T): (r: seq<T>)
    requires p <= |s|
    ensures |r| == |s| + 1
  {
    s[..p] + [x] + s[p..]
  }

  predicate Distinct<T(==)>(names: seq<T>) {
    forall i, j | 0 <= i < j < |names| :: names[i] != names[j]
  }

  class DataFrame {
    var names: seq<string>
    var columns: map<string, seq<Cell>>
    var rows: nat

    ghost predicate Valid()
      reads this
    {
      && Distinct(names)
      && (forall c :: c in columns <==> c in names)
      && (forall c | c in columns :: |columns[c]| == rows)
    }

    constructor (rows: nat)
      ensures Valid()
      ensures names == [] && columns == map[] && this.rows == rows
    {
      names := [];
      columns := map[];
      this.rows := rows;
    }

    /** `data_frame[name] = col`: replaces an existing column where it stands, or appends a new one. */
    method SetColumn(name: string, col: seq<Cell>)
      requires Valid() && |col| == rows
      modifies this
      ensures Valid()
      ensures columns == old(columns)[name := col]
      ensures names == if name in old(names) then old(names) else old(names) + [name]
      ensures rows == old(rows)
    {
      if name !in names {
        names := names + [name];
      }
      columns := columns[name := col];
    }

    /** `data_frame.at[row, name] = v` on an existing cell. */
    method SetCell(name: string, row: nat, v: Cell)
      requires Valid() && name in columns && row < rows
      modifies this
      ensures Valid()
      ensures columns == old(columns)[name := old(columns)[name][row := v]]
      ensures names == old(names) && rows == old(rows)
    {
      columns := columns[name := columns[name][row := v]];
    }

    /** Setting with enlargement on columns: a missing column is appended filled with NaN. */
    method AddColumnIfMissing(name: string)
      requires Valid()
      modifies this
      ensures Valid()
      ensures columns == if name in old(columns) then old(columns) else old(columns)[name := Nans(rows)]
      ensures names == if name in old(names) then old(names) else old(names) + [name]
      ensures rows == old(rows)
    {
      if name !in columns {
        SetColumn(name, Nans(rows));
      }
    }

    /** Setting with enlargement on rows: one new row, NaN in every column. */
    method AppendRow()
      requires Valid()
      modifies this
      ensures Valid()
      ensures rows == old(rows) + 1 && names == old(names)
      ensures columns.Keys == old(columns).Keys
      ensures forall c | c in columns :: columns[c] == old(columns)[c] + [Nan]
    {
      columns := map c | c in columns :: columns[c] + [Nan];
      rows := rows + 1;
    }

    /** `data_frame.pop(name)`: removes the column and returns it; KeyError when it is missing. */
    method Pop(name: string) returns (r: Result<seq<Cell>>)
      requires Valid()
      modifies this
      ensures Valid() && rows == old(rows)
      ensures name !in old(columns) ==> r == Err(KeyError(name)) && unchanged(this)
      ensures name in old(columns) ==>
        && r == Ok(old(columns)[name])
        && columns == old(columns) - {name}
        && names == Without(old(names), name)
    {
      if name !in columns {
        return Err(KeyError(name));
      }
      r := Ok(columns[name]);
      var k := IndexOf(names, name).value;
      WithoutDistinct(names, name, k);
      names := names[..k] + names[k + 1..];
      columns := columns - {name};
      DistinctRemove(old(names), k);
    }

    /** `data_frame.insert(loc, name, col)` for a name not yet in the frame. */
    method Insert(loc: nat, name: string, col: seq<Cell>)
      requires Valid() && name !in columns && loc <= |names| && |col| == rows
      modifies this
      ensures Valid() && rows == old(rows)
      ensures names == InsertAt(old(names), loc, name)
      ensures columns == old(columns)[name := col]
    {
      assert name !in names;
      names := names[..loc] + [name] + names[loc..];
      columns := columns[name := col];
      assert forall c :: c in names <==> c in old(names) || c == name;
    }
  }

  /** In a list without repeats, dropping a name is cutting it out at its one position. */
  lemma {:induction false} WithoutDistinct<T>(names: seq<T>, name: T, k: nat)
    requires Distinct(names) && k < |names| && names[k] == name
    ensures Without(names, name) == RemoveAt(names, k)
  {
    if k == 0 {
      WithoutAbsent(names[1..], name);
      assert names[1..] == names[k + 1..];
    } else {
      WithoutDistinct(names[1..], name, k - 1);
      assert names[..k] == [names[0]] + names[1..][..k - 1];
      assert names[k + 1..] == names[1..][k..];
    }
  }

  lemma {:induction false} WithoutAbsent<T>(names: seq<T>, name: T)
    requires name !in names
    ensures Without(names, name) == names
  {
    if names != [] {
      WithoutAbsent(names[1..], name);
      assert names == [names[0]] + names[1..];
    }
  }

  lemma DistinctRemove<T>(names: seq<T>, k: nat)
    requires Distinct(names) && k < |names|
    ensures Distinct(names[..k] + names[k + 1..])
  {
    var r := names[..k] + names[k + 1..];
    forall i, j | 0 <= i < j < |r| ensures r[i] != r[j] {
      var i' := if i < k then i else i + 1;
      var j' := if j < k then j else j + 1;
      assert r[i] == names[i'] && r[j] == names[j'];
    }
  }
}
