/**
 * The cleanup of the mining-pool share table on `/pools`: the rows of the
 * table, each a list of the texts of its cells, become the list of pools the
 * page shows. The first row is the table's header and is skipped; every cell
 * is stripped and the cells left empty are dropped.
 */
module Pools {
  import opened Text

  /** `[element.text.strip() for element in columns]` */
  function StripCells(cells: seq<string>): (r: seq<string>)
    ensures |r| == |cells|
    ensures forall k :: 0 <= k < |r| ==> r[k] == Strip(cells[k])
    decreases |cells|
  {
    if cells == [] then [] else [Strip(cells[0])] + StripCells(cells[1..])
  }

  /** `[element for element in cols if element]`: the non-empty strings, in order. */
  function NonEmpty(xs: seq<string>): (r: seq<string>)
    ensures |r| <= |xs|
    ensures forall k :: 0 <= k < |r| ==> r[k] != []
    ensures forall c :: c in r <==> c in xs && c != []
    decreases |xs|
  {
    if xs == [] then []
    else if xs[0] == [] then NonEmpty(xs[1..])
    else [xs[0]] + NonEmpty(xs[1..])
  }

  /** One row of the pool table as the page shows it. */
  function CleanRow(row: seq<string>): seq<string>
  {
    NonEmpty(StripCells(row))
  }

  /** Filtering distributes over concatenation: together with the one-cell
      case, this says `NonEmpty` keeps exactly the non-empty cells in their
      original order. */
  lemma {:induction false} NonEmptyAppend(a: seq<string>, b: seq<string>)
    ensures NonEmpty(a + b) == NonEmpty(a) + NonEmpty(b)
    decreases |a|
  {
    if a != [] {
      assert (a + b)[0] == a[0];
      assert (a + b)[1..] == a[1..] + b;
      NonEmptyAppend(a[1..], b);
    } else {
      assert a + b == b;
    }
  }

  /** A single cell survives exactly when it is not empty. */
  lemma NonEmptySingle(c: string)
    ensures NonEmpty([c]) == if c == [] then [] else [c]
  {
  }

  /** Filtering a row that has no empty cell leaves it as it is. */
  lemma {:induction false} NonEmptyIdentity(xs: seq<string>)
    requires forall k :: 0 <= k < |xs| ==> xs[k] != []
    ensures NonEmpty(xs) == xs
    decreases |xs|
  {
    if xs != [] {
      NonEmptyIdentity(xs[1..]);
    }
  }

  /** Every cell of a cleaned row is non-empty and carries no whitespace around it. */
  lemma CleanRowCells(row: seq<string>)
    ensures forall c :: c in CleanRow(row) ==> c != [] && Strip(c) == c
  {
    forall c | c in CleanRow(row) ensures Strip(c) == c {
      var j :| 0 <= j < |row| && StripCells(row)[j] == c;
      StripIdempotent(row[j]);
    }
  }

  /** Cleaning a cleaned row again changes nothing. */
  lemma CleanRowIdempotent(row: seq<string>)
    ensures CleanRow(CleanRow(row)) == CleanRow(row)
  {
    var r := CleanRow(row);
    CleanRowCells(row);
    assert StripCells(r) == r;
    NonEmptyIdentity(r);
  }

  /** The loop of the `/pools` handler over the table's rows. */
  method PoolRows(rows: seq<seq<string>>) returns (pools: seq<seq<string>>)
    ensures |pools| == if rows == [] then 0 else |rows| - 1
    ensures forall i :: 0 <= i < |pools| ==> pools[i] == CleanRow(rows[i + 1])
    ensures forall i, k :: 0 <= i < |pools| && 0 <= k < |pools[i]| ==>
              pools[i][k] != [] && Strip(pools[i][k]) == pools[i][k]
  {
    pools := [];
    for idx := 0 to |rows|
      invariant |pools| == if idx == 0 then 0 else idx - 1
      invariant forall i :: 0 <= i < |pools| ==> pools[i] == CleanRow(rows[i + 1])
    {
      if idx != 0 {
        var cols := StripCells(rows[idx]);
        pools := pools + [NonEmpty(cols)];
      }
    }
    forall i, k | 0 <= i < |pools| && 0 <= k < |pools[i]|
      ensures pools[i][k] != [] && Strip(pools[i][k]) == pools[i][k]
    {
      CleanRowCells(rows[i + 1]);
      assert pools[i][k] in CleanRow(rows[i + 1]);
    }
  }
}
