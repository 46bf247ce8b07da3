/** Neighbourhood statistics of a measurement table: every column is copied, and every column
    other than label/frame gets one derived column per enabled neighbourhood and enabled
    measure, named "<measure>_<neighbourhood>_<column>". Values computed on the GPU are
    abstract: a derived column is represented by what it measures. */
module NeighborhoodStatistics {
  import opened Wrappers
  import opened Strings
  import opened Dicts

  /** The switches of `neighborhood_statistics_of_data`; the proximal distance is the text
      Python's str() prints for it. */
  datatype Settings = Settings(
    touching: bool,
    ofTouching: bool,
    proximal: bool,
    distanceText: string,
    nearest: bool,
    n: int,
    mean: bool,
    std: bool,
    minimum: bool,
    maximum: bool,
    median: bool)

  datatype Measure = Mean | StdDev | Minimum | Maximum | Median

  function Prefix(m: Measure): string
  {
    match m
    case Mean => "mean_"
    case StdDev => "std_"
    case Minimum => "min_"
    case Maximum => "max_"
    case Median => "median_"
  }

  /** An output column: an input column copied, or a measure of a column over a
      neighbourhood. */
  datatype Cell = Copied(column: string) | Stat(measure: Measure, neighborhood: string, column: string)

  function Opt<T>(b: bool, x: T): seq<T>
  {
    if b then [x] else []
  }

  /** The names of the `neighborhoods` dictionary, in the order it is filled. */
  function NeighborhoodsOf(s: Settings): seq<string>
  {
    (if s.touching || s.ofTouching then Opt(s.touching, "tn") + Opt(s.ofTouching, "tntn") else [])
      + (if s.proximal || s.nearest then Opt(s.proximal, "pn" + s.distanceText) + Opt(s.nearest, "nn" + IntToString(s.n)) else [])
  }

  /** "tn" is a neighbourhood iff touching neighbours are asked for, "tntn" iff neighbours of
      touching neighbours are, "pn" + the distance iff proximal ones are, "nn" + n iff the n
      nearest are; there are no others, and none is listed twice. */
  lemma NeighborhoodsMembers(s: Settings)
    ensures var r := NeighborhoodsOf(s);
      && ("tn" in r <==> s.touching)
      && ("tntn" in r <==> s.ofTouching)
      && ("pn" + s.distanceText in r <==> s.proximal)
      && ("nn" + IntToString(s.n) in r <==> s.nearest)
      && (forall nb :: nb in r ==> nb == "tn" || nb == "tntn" || nb == "pn" + s.distanceText || nb == "nn" + IntToString(s.n))
      && |r| == |Opt(s.touching, 0)| + |Opt(s.ofTouching, 0)| + |Opt(s.proximal, 0)| + |Opt(s.nearest, 0)|
      && Distinct(r)
  {
    var pn := "pn" + s.distanceText;
    var nn := "nn" + IntToString(s.n);
    assert pn[0] == 'p' && nn[0] == 'n';
    var a := if s.touching || s.ofTouching then Opt(s.touching, "tn") + Opt(s.ofTouching, "tntn") else [];
    var b := if s.proximal || s.nearest then Opt(s.proximal, pn) + Opt(s.nearest, nn) else [];
    DistinctSnoc(Opt(s.touching, "tn"), Opt(s.ofTouching, "tntn"));
    DistinctSnoc(Opt(s.proximal, pn), Opt(s.nearest, nn));
    DistinctSnoc(a, b);
  }

  /** The enabled measures, in the order they are tested. */
  function Enabled(s: Settings): seq<Measure>
  {
    Opt(s.mean, Mean) + Opt(s.std, StdDev) + Opt(s.minimum, Minimum) + Opt(s.maximum, Maximum) + Opt(s.median, Median)
  }

  /** A measure is enabled exactly when its switch is on, and none is listed twice. */
  lemma EnabledMembers(s: Settings)
    ensures Mean in Enabled(s) <==> s.mean
    ensures StdDev in Enabled(s) <==> s.std
    ensures Minimum in Enabled(s) <==> s.minimum
    ensures Maximum in Enabled(s) <==> s.maximum
    ensures Median in Enabled(s) <==> s.median
  {
  }

  lemma EnabledDistinct(s: Settings)
    ensures Distinct(Enabled(s))
  {
    var e1 := Opt(s.mean, Mean) + Opt(s.std, StdDev);
    var e2 := e1 + Opt(s.minimum, Minimum);
    var e3 := e2 + Opt(s.maximum, Maximum);
    DistinctSnoc(Opt(s.mean, Mean), Opt(s.std, StdDev));
    DistinctSnoc(e1, Opt(s.minimum, Minimum));
    DistinctSnoc(e2, Opt(s.maximum, Maximum));
    DistinctSnoc(e3, Opt(s.median, Median));
  }

  predicate Distinct<T(==)>(xs: seq<T>)
  {
    forall i, j :: 0 <= i < j < |xs| ==> xs[i] != xs[j]
  }

  lemma DistinctSnoc<T>(a: seq<T>, b: seq<T>)
    requires Distinct(a) && Distinct(b) && forall x :: x in a ==> x !in b
    ensures Distinct(a + b)
  {
    forall i, j | 0 <= i < j < |a + b| ensures (a + b)[i] != (a + b)[j] {
      if i < |a| && j >= |a| {
        assert (a + b)[i] in a && (a + b)[j] == b[j - |a|];
      }
    }
  }

  /** Columns named label or frame, in any case, get no derived columns. */
  predicate IsLabelColumn(column: string)
  {
    Lower(column) == "label" || Lower(column) == "frame"
  }

  function DerivedKey(m: Measure, neighborhood: string, column: string): string
  {
    Prefix(m) + neighborhood + "_" + column
  }

  /** The output key of a cell. */
  function KeyOf(x: Cell): string
  {
    match x
    case Copied(c) => c
    case Stat(m, nb, c) => DerivedKey(m, nb, c)
  }

  function Items(cells: seq<Cell>): (r: Dict<Cell>)
    ensures |r| == |cells| && forall k :: 0 <= k < |cells| ==> r[k] == (KeyOf(cells[k]), cells[k])
  {
    seq(|cells|, k requires 0 <= k < |cells| => (KeyOf(cells[k]), cells[k]))
  }

  /** The cells of measures `ms` of one column over one neighbourhood. */
  function StatsOf(ms: seq<Measure>, nb: string, column: string): (r: seq<Cell>)
    ensures |r| == |ms| && forall k :: 0 <= k < |ms| ==> r[k] == Stat(ms[k], nb, column)
  {
    seq(|ms|, k requires 0 <= k < |ms| => Stat(ms[k], nb, column))
  }

  /** The cells of one column and neighbourhood, one per enabled measure. */
  function MeasureCells(column: string, nb: string, s: Settings): seq<Cell>
  {
    StatsOf(Enabled(s), nb, column)
  }

  function NeighborhoodCells(column: string, nbs: seq<string>, s: Settings): seq<Cell>
  {
    if nbs == [] then []
    else NeighborhoodCells(column, nbs[..|nbs| - 1], s) + MeasureCells(column, nbs[|nbs| - 1], s)
  }

  function ColumnCells(column: string, nbs: seq<string>, s: Settings): seq<Cell>
  {
    [Copied(column)] + (if IsLabelColumn(column) then [] else NeighborhoodCells(column, nbs, s))
  }

  /** Every assignment to the output table, in the order the loops make them. */
  function Cells(table: seq<string>, nbs: seq<string>, s: Settings): seq<Cell>
  {
    if table == [] then []
    else Cells(table[..|table| - 1], nbs, s) + ColumnCells(table[|table| - 1], nbs, s)
  }

  lemma CellsSnoc(table: seq<string>, i: nat, nbs: seq<string>, s: Settings)
    requires i < |table|
    ensures Cells(table[..i + 1], nbs, s) == Cells(table[..i], nbs, s) + ColumnCells(table[i], nbs, s)
  {
    assert table[..i + 1][..i] == table[..i];
  }

  lemma Assoc<T>(a: seq<T>, b: seq<T>, c: seq<T>)
    ensures a + b + c == a + (b + c)
  {
  }

  lemma ItemsConcat(a: seq<Cell>, b: seq<Cell>)
    ensures Items(a + b) == Items(a) + Items(b)
  {
  }

  /** The assignments of the enabled measures for one column and neighbourhood. */
  method PutMeasures(d: Dict<Cell>, column: string, nb: string, s: Settings) returns (r: Dict<Cell>)
    ensures r == PutAll(d, Items(MeasureCells(column, nb, s)))
  {
    r := d;
    if s.mean {
      r := Put(r, Prefix(Mean) + nb + "_" + column, Stat(Mean, nb, column));
    }
    PutOpt(d, [], s.mean, Mean, nb, column);
    assert [] + Opt(s.mean, Mean) == Opt(s.mean, Mean);
    ghost var done := Opt(s.mean, Mean);
    if s.std {
      r := Put(r, Prefix(StdDev) + nb + "_" + column, Stat(StdDev, nb, column));
    }
    PutOpt(d, done, s.std, StdDev, nb, column);
    done := done + Opt(s.std, StdDev);
    if s.minimum {
      r := Put(r, Prefix(Minimum) + nb + "_" + column, Stat(Minimum, nb, column));
    }
    PutOpt(d, done, s.minimum, Minimum, nb, column);
    done := done + Opt(s.minimum, Minimum);
    if s.maximum {
      r := Put(r, Prefix(Maximum) + nb + "_" + column, Stat(Maximum, nb, column));
    }
    PutOpt(d, done, s.maximum, Maximum, nb, column);
    done := done + Opt(s.maximum, Maximum);
    if s.median {
      r := Put(r, Prefix(Median) + nb + "_" + column, Stat(Median, nb, column));
    }
    PutOpt(d, done, s.median, Median, nb, column);
    done := done + Opt(s.median, Median);
    assert done == Enabled(s);
  }

  lemma PutOpt(d: Dict<Cell>, done: seq<Measure>, b: bool, m: Measure, nb: string, column: string)
    ensures PutAll(d, Items(StatsOf(done + Opt(b, m), nb, column))) ==
      if b then Put(PutAll(d, Items(StatsOf(done, nb, column))), DerivedKey(m, nb, column), Stat(m, nb, column))
      else PutAll(d, Items(StatsOf(done, nb, column)))
  {
    var before := Items(StatsOf(done, nb, column));
    if b {
      var after := Items(StatsOf(done + [m], nb, column));
      assert after[..|done|] == before;
      assert after[|done|] == (DerivedKey(m, nb, column), Stat(m, nb, column));
    } else {
      assert done + Opt(b, m) == done;
    }
  }

  /** The neighbourhood loop for one column: the enabled measures over each neighbourhood,
      in order. */
  method PutNeighborhoods(d: Dict<Cell>, key: string, nbs: seq<string>, s: Settings) returns (output: Dict<Cell>)
    ensures output == PutAll(d, Items(NeighborhoodCells(key, nbs, s)))
  {
    output := d;
    for j := 0 to |nbs|
      invariant output == PutAll(d, Items(NeighborhoodCells(key, nbs[..j], s)))
    {
      ghost var mid := NeighborhoodCells(key, nbs[..j], s);
      output := PutMeasures(output, key, nbs[j], s);
      assert nbs[..j + 1][..j] == nbs[..j];
      PutAllConcat(d, Items(mid), Items(MeasureCells(key, nbs[j], s)));
      ItemsConcat(mid, MeasureCells(key, nbs[j], s));
    }
    assert nbs[..|nbs|] == nbs;
  }

  /** `neighborhood_statistics_of_data`: the output table built by the column, neighbourhood
      and measure loops. */
  method NeighborhoodStatisticsOfData(table: seq<string>, s: Settings) returns (output: Dict<Cell>)
    ensures output == PutAll([], Items(Cells(table, NeighborhoodsOf(s), s)))
  {
    var nbs := NeighborhoodsOf(s);
    output := [];
    for i := 0 to |table|
      invariant output == PutAll([], Items(Cells(table[..i], nbs, s)))
    {
      var key := table[i];
      ghost var before := Cells(table[..i], nbs, s);
      output := Put(output, key, Copied(key));
      assert output == PutAll([], Items(before + [Copied(key)])) by {
        PutAllConcat([], Items(before), Items([Copied(key)]));
        ItemsConcat(before, [Copied(key)]);
      }
      if IsLabelColumn(key) {
        assert output == PutAll([], Items(Cells(table[..i + 1], nbs, s))) by {
          CellsSnoc(table, i, nbs, s);
          assert ColumnCells(key, nbs, s) == [Copied(key)];
        }
        continue;
      }
      output := PutNeighborhoods(output, key, nbs, s);
      assert output == PutAll([], Items(Cells(table[..i + 1], nbs, s))) by {
        var tail := NeighborhoodCells(key, nbs, s);
        PutAllConcat([], Items(before + [Copied(key)]), Items(tail));
        ItemsConcat(before + [Copied(key)], tail);
        Assoc(before, [Copied(key)], tail);
        CellsSnoc(table, i, nbs, s);
      }
    }
    assert table[..|table|] == table;
  }

  // ---------------------------------------------------------------------------------------
  // What the output table holds

  /** The measure whose prefix starts `key`, trying the prefixes in measure order. */
  function MeasureOfPrefix(key: string): Option<Measure>
  {
    if StartsWith(key, Prefix(Mean)) then Some(Mean)
    else if StartsWith(key, Prefix(StdDev)) then Some(StdDev)
    else if StartsWith(key, Prefix(Minimum)) then Some(Minimum)
    else if StartsWith(key, Prefix(Maximum)) then Some(Maximum)
    else if StartsWith(key, Prefix(Median)) then Some(Median)
    else None
  }

  /** Reads a derived key back: the measure of its prefix, the neighbourhood up to the next
      '_', and the column after it. */
  function ParseDerived(key: string): (r: Option<Cell>)
    ensures r.Some? ==> r.value.Stat?
  {
    match MeasureOfPrefix(key)
    case None => None
    case Some(m) =>
      var rest := key[|Prefix(m)|..];
      var nb := BeforeFirst(rest, '_');
      if |nb| == |rest| then None else Some(Stat(m, nb, rest[|nb| + 1..]))
  }

  lemma MeasureOfDerivedKey(m: Measure, rest: string)
    ensures MeasureOfPrefix(Prefix(m) + rest) == Some(m)
  {
    var key := Prefix(m) + rest;
    assert key[..|Prefix(m)|] == Prefix(m);
    assert key[0] == Prefix(m)[0] && key[1] == Prefix(m)[1] && key[2] == Prefix(m)[2];
  }

  /** Every prefix starts with 'm' or 's', so a key starting otherwise is not derived. */
  lemma NotDerived(key: string)
    requires |key| > 0 && key[0] != 'm' && key[0] != 's'
    ensures MeasureOfPrefix(key) == None && ParseDerived(key) == None
  {
  }

  lemma {:induction false} BeforeFirstOfConcat(a: string, c: char, b: string)
    requires c !in a
    ensures BeforeFirst(a + [c] + b, c) == a
    decreases |a|
  {
    if a != [] {
      assert (a + [c] + b)[1..] == a[1..] + [c] + b;
      BeforeFirstOfConcat(a[1..], c, b);
    }
  }

  /** Derived keys read back to the measure, neighbourhood and column they were built from,
      whenever the neighbourhood name holds no '_'. */
  lemma DerivedKeyRoundTrip(m: Measure, nb: string, column: string)
    requires '_' !in nb
    ensures ParseDerived(DerivedKey(m, nb, column)) == Some(Stat(m, nb, column))
  {
    var key := DerivedKey(m, nb, column);
    MeasureOfDerivedKey(m, nb + "_" + column);
    assert key == Prefix(m) + (nb + "_" + column);
    var rest := key[|Prefix(m)|..];
    assert rest == nb + ['_'] + column;
    BeforeFirstOfConcat(nb, '_', column);
    assert rest[|nb| + 1..] == column;
  }

  lemma {:induction false} NatToStringNoUnderscore(n: nat)
    ensures '_' !in NatToString(n)
  {
    var t := NatToString(n);
    assert forall k :: 0 <= k < |t| ==> t[k] != '_';
  }

  /** With a proximal distance printed without '_', no neighbourhood name holds one. */
  lemma NeighborhoodsNoUnderscore(s: Settings)
    requires '_' !in s.distanceText
    ensures forall nb :: nb in NeighborhoodsOf(s) ==> '_' !in nb
  {
    NeighborhoodsMembers(s);
    if s.n < 0 {
      NatToStringNoUnderscore(-s.n);
      assert IntToString(s.n) == "-" + NatToString(-s.n);
    } else {
      NatToStringNoUnderscore(s.n);
    }
    assert '_' !in "nn" + IntToString(s.n);
    assert '_' !in "pn" + s.distanceText;
  }

  lemma {:induction false} NeighborhoodCellsMembers(column: string, nbs: seq<string>, s: Settings, x: Cell)
    ensures x in NeighborhoodCells(column, nbs, s) <==>
      x.Stat? && x.column == column && x.neighborhood in nbs && x.measure in Enabled(s)
    decreases |nbs|
  {
    if nbs != [] {
      var init := nbs[..|nbs| - 1];
      NeighborhoodCellsMembers(column, init, s, x);
      assert nbs == init + [nbs[|nbs| - 1]];
      if x in MeasureCells(column, nbs[|nbs| - 1], s) {
        var k :| 0 <= k < |Enabled(s)| && MeasureCells(column, nbs[|nbs| - 1], s)[k] == x;
      }
      if x.Stat? && x.column == column && x.neighborhood == nbs[|nbs| - 1] && x.measure in Enabled(s) {
        var k :| 0 <= k < |Enabled(s)| && Enabled(s)[k] == x.measure;
        assert MeasureCells(column, nbs[|nbs| - 1], s)[k] == x;
      }
    }
  }

  /** The output cells: every input column copied, and a measure of a column over a
      neighbourhood exactly when the column is not label/frame, the neighbourhood is
      enabled and the measure is enabled. */
  lemma {:induction false} CellsMembers(table: seq<string>, nbs: seq<string>, s: Settings, x: Cell)
    ensures x in Cells(table, nbs, s) <==>
      || (x.Copied? && x.column in table)
      || (x.Stat? && x.column in table && !IsLabelColumn(x.column) && x.neighborhood in nbs && x.measure in Enabled(s))
    decreases |table|
  {
    if table != [] {
      var init := table[..|table| - 1];
      var c := table[|table| - 1];
      CellsMembers(init, nbs, s, x);
      NeighborhoodCellsMembers(c, nbs, s, x);
      assert table == init + [c];
    }
  }

  /** The number of non-label columns. */
  function NonLabelCount(table: seq<string>): nat
  {
    if table == [] then 0
    else NonLabelCount(table[..|table| - 1]) + (if IsLabelColumn(table[|table| - 1]) then 0 else 1)
  }

  lemma MulSucc(a: nat, n: nat)
    ensures (a + 1) * n == a * n + n
  {
  }

  lemma {:induction false} NeighborhoodCellsCount(column: string, nbs: seq<string>, s: Settings)
    ensures |NeighborhoodCells(column, nbs, s)| == |nbs| * |Enabled(s)|
    decreases |nbs|
  {
    if nbs != [] {
      NeighborhoodCellsCount(column, nbs[..|nbs| - 1], s);
      MulSucc(|nbs| - 1, |Enabled(s)|);
    }
  }

  /** One cell per column plus, per non-label column, one per neighbourhood and enabled
      measure. */
  lemma {:induction false} CellsCount(table: seq<string>, nbs: seq<string>, s: Settings)
    ensures |Cells(table, nbs, s)| == |table| + NonLabelCount(table) * (|nbs| * |Enabled(s)|)
    decreases |table|
  {
    if table != [] {
      var init := table[..|table| - 1];
      var c := table[|table| - 1];
      var per := |nbs| * |Enabled(s)|;
      CellsCount(init, nbs, s);
      assert Cells(table, nbs, s) == Cells(init, nbs, s) + ColumnCells(c, nbs, s);
      if IsLabelColumn(c) {
        assert |ColumnCells(c, nbs, s)| == 1;
        assert NonLabelCount(table) == NonLabelCount(init);
      } else {
        NeighborhoodCellsCount(c, nbs, s);
        assert |ColumnCells(c, nbs, s)| == 1 + per;
        assert NonLabelCount(table) == NonLabelCount(init) + 1;
        MulSucc(NonLabelCount(init), per);
      }
    }
  }

  lemma {:induction false} NeighborhoodCellsDistinct(column: string, nbs: seq<string>, s: Settings)
    requires Distinct(nbs)
    ensures Distinct(NeighborhoodCells(column, nbs, s))
    decreases |nbs|
  {
    if nbs != [] {
      var init := nbs[..|nbs| - 1];
      var nb := nbs[|nbs| - 1];
      NeighborhoodCellsDistinct(column, init, s);
      EnabledDistinct(s);
      var block := MeasureCells(column, nb, s);
      assert Distinct(block) by {
        forall i, j | 0 <= i < j < |block| ensures block[i] != block[j] {
          assert block[i].measure == Enabled(s)[i];
        }
      }
      forall x | x in NeighborhoodCells(column, init, s) ensures x !in block {
        NeighborhoodCellsMembers(column, init, s, x);
        var k :| 0 <= k < |init| && init[k] == x.neighborhood;
        assert nbs[k] == x.neighborhood;
      }
      DistinctSnoc(NeighborhoodCells(column, init, s), block);
    }
  }

  /** Distinct columns and distinct neighbourhoods give distinct cells. */
  lemma {:induction false} CellsDistinct(table: seq<string>, nbs: seq<string>, s: Settings)
    requires Distinct(table) && Distinct(nbs)
    ensures Distinct(Cells(table, nbs, s))
    decreases |table|
  {
    if table != [] {
      var init := table[..|table| - 1];
      var c := table[|table| - 1];
      assert Distinct(init) by {
        forall i, j | 0 <= i < j < |init| ensures init[i] != init[j] {
          assert init[i] == table[i] && init[j] == table[j];
        }
      }
      CellsDistinct(init, nbs, s);
      var stats := if IsLabelColumn(c) then [] else NeighborhoodCells(c, nbs, s);
      var block := [Copied(c)] + stats;
      NeighborhoodCellsDistinct(c, nbs, s);
      assert Distinct(block) by {
        forall x | x in stats ensures x != Copied(c) {
          NeighborhoodCellsMembers(c, nbs, s, x);
        }
        DistinctSnoc([Copied(c)], stats);
      }
      forall x | x in Cells(init, nbs, s) ensures x !in block {
        CellsMembers(init, nbs, s, x);
        var k :| 0 <= k < |init| && init[k] == x.column;
        assert table[k] == x.column && k < |table| - 1;
        if x in stats {
          NeighborhoodCellsMembers(c, nbs, s, x);
        }
      }
      DistinctSnoc(Cells(init, nbs, s), block);
    }
  }

  /** No input column reads back as a derived key over one of the neighbourhoods. */
  predicate NoDerivedColumn(table: seq<string>, nbs: seq<string>)
  {
    forall c :: c in table ==> ParseDerived(c).None? || ParseDerived(c).value.neighborhood !in nbs
  }

  /** Different output cells get different keys. */
  lemma KeysDiffer(table: seq<string>, nbs: seq<string>, s: Settings, x: Cell, y: Cell)
    requires NoDerivedColumn(table, nbs) && forall nb :: nb in nbs ==> '_' !in nb
    requires x in Cells(table, nbs, s) && y in Cells(table, nbs, s) && x != y
    ensures KeyOf(x) != KeyOf(y)
  {
    CellsMembers(table, nbs, s, x);
    CellsMembers(table, nbs, s, y);
    if x.Stat? {
      DerivedKeyRoundTrip(x.measure, x.neighborhood, x.column);
    }
    if y.Stat? {
      DerivedKeyRoundTrip(y.measure, y.neighborhood, y.column);
    }
  }

  /** When the columns are distinct, no column name reads back as a derived key over an
      enabled neighbourhood, and the proximal distance prints without '_', no assignment
      overwrites another: the output table holds every cell, in order, under its own key. */
  lemma OutputHoldsEveryCell(table: seq<string>, s: Settings)
    requires Distinct(table) && '_' !in s.distanceText && NoDerivedColumn(table, NeighborhoodsOf(s))
    ensures PutAll([], Items(Cells(table, NeighborhoodsOf(s), s))) == Items(Cells(table, NeighborhoodsOf(s), s))
  {
    var nbs := NeighborhoodsOf(s);
    NeighborhoodsMembers(s);
    NeighborhoodsNoUnderscore(s);
    CellsDistinct(table, nbs, s);
    var cells := Cells(table, nbs, s);
    var items := Items(cells);
    forall i, j | 0 <= i < j < |items| ensures items[i].0 != items[j].0 {
      KeysDiffer(table, nbs, s, cells[i], cells[j]);
    }
    assert [] + items == items;
    PutAllFresh([], items);
  }

  /** The measurement table {label, area} with all four neighbourhoods (proximal distance
      1.5, n = 1) and all five measures gives 2 + 1 * 4 * 5 = 22 columns. */
  lemma TwentyTwoColumns()
    ensures var s := Settings(true, true, true, "1.5", true, 1, true, true, true, true, true);
      |PutAll([], Items(Cells(["label", "area"], NeighborhoodsOf(s), s)))| == 22
  {
    var s := Settings(true, true, true, "1.5", true, 1, true, true, true, true, true);
    var table := ["label", "area"];
    assert Lower("label") == "label";
    assert |Lower("area")| == 4;
    assert table[..1] == ["label"];
    assert NonLabelCount(table) == 1;
    NeighborhoodsMembers(s);
    assert |Enabled(s)| == 5;
    CellsCount(table, NeighborhoodsOf(s), s);
    NotDerived("label");
    NotDerived("area");
    OutputHoldsEveryCell(table, s);
  }
}
