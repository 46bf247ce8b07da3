/** Region-property selection: which columns of the GPU statistics table are returned for a
    source keyword ("shape", "intensity", "neighborhood"), and which keys the neighbourhood
    path adds. Measured values are abstract. */
module AdvancedStatistics {
  import opened Wrappers
  import opened Strings
  import opened Dicts

  /** A value of the region-properties table: a measured column, the average distance of the
      n closest points, or the touching-neighbour count. */
  datatype Value = Measured(column: string) | AvgDistance(n: int) | TouchCount

  /** How a call ends: with a value, or with the ValueError that `np.min` raises on an empty
      selection. */
  datatype Outcome<T> = Returns(value: T) | RaisesValueError

  /** The label image, as its pixel values, holds some label: `np.nonzero` selects a pixel,
      so `np.min` of the selection has a value. */
  predicate HasLabels(labelImage: seq<int>)
  {
    exists i :: 0 <= i < |labelImage| && labelImage[i] != 0
  }

  const BaseColumns: seq<string> := ["label", "centroid_x", "centroid_y", "centroid_z"]

  const IntensityColumns: seq<string> :=
    ["min_intensity", "max_intensity", "sum_intensity", "mean_intensity", "standard_deviation_intensity"]

  const ShapeColumns: seq<string> :=
    ["area", "mean_distance_to_centroid", "max_distance_to_centroid", "mean_max_distance_to_centroid_ratio"]

  /** The columns chosen for a source keyword. */
  function SelectedColumns(source: string): seq<string>
  {
    BaseColumns
      + (if Contains(source, "intensity") then IntensityColumns else [])
      + (if Contains(source, "shape") then ShapeColumns else [])
  }

  /** The base columns are always chosen, the intensity columns iff the source names
      "intensity", the shape columns iff it names "shape", and nothing else. */
  lemma SelectedColumnsMembers(source: string, c: string)
    ensures c in SelectedColumns(source) <==>
      || c in BaseColumns
      || (Contains(source, "intensity") && c in IntensityColumns)
      || (Contains(source, "shape") && c in ShapeColumns)
  {
  }

  /** `{column: value for column, value in d.items() if column in columns}`. */
  function Restrict<V>(d: Dict<V>, columns: seq<string>): Dict<V>
  {
    if d == [] then []
    else (if d[0].0 in columns then [d[0]] else []) + Restrict(d[1..], columns)
  }

  /** The restriction keeps exactly the items whose key is a chosen column. */
  lemma {:induction false} RestrictMembers<V>(d: Dict<V>, columns: seq<string>, p: (string, V))
    ensures p in Restrict(d, columns) <==> p in d && p.0 in columns
    decreases |d|
  {
    if d != [] {
      RestrictMembers(d[1..], columns, p);
      assert d == [d[0]] + d[1..];
    }
  }

  /** The restriction keeps the items in their order. */
  lemma {:induction false} RestrictConcat<V>(a: Dict<V>, b: Dict<V>, columns: seq<string>)
    ensures Restrict(a + b, columns) == Restrict(a, columns) + Restrict(b, columns)
    decreases |a|
  {
    if a == [] {
      assert a + b == b;
    } else {
      var head := if a[0].0 in columns then [a[0]] else [];
      assert (a + b)[0] == a[0];
      assert (a + b)[1..] == a[1..] + b;
      RestrictConcat(a[1..], b, columns);
      calc {
        Restrict(a + b, columns);
        head + Restrict(a[1..] + b, columns);
        head + (Restrict(a[1..], columns) + Restrict(b, columns));
        (head + Restrict(a[1..], columns)) + Restrict(b, columns);
        Restrict(a, columns) + Restrict(b, columns);
      }
    }
  }

  /** Reading a restricted table: a chosen column reads as before, any other key is absent. */
  lemma {:induction false} RestrictGet<V>(d: Dict<V>, columns: seq<string>, k: string)
    ensures Get(Restrict(d, columns), k) == if k in columns then Get(d, k) else None
    decreases |d|
  {
    if d != [] {
      var rest := Restrict(d[1..], columns);
      RestrictGet(d[1..], columns, k);
      if d[0].0 in columns {
        assert Restrict(d, columns) == [d[0]] + rest;
        assert ([d[0]] + rest)[1..] == rest;
      } else {
        assert Restrict(d, columns) == rest;
      }
    }
  }

  function AvgKey(i: int): string
  {
    "avg distance of " + IntToString(i) + " closest points"
  }

  const TouchKey: string := "touching neighbor count"

  /** The assignments of the loop over the neighbour counts. */
  function AvgItems(ns: seq<int>): (r: Dict<Value>)
    ensures |r| == |ns|
  {
    seq(|ns|, k requires 0 <= k < |ns| => (AvgKey(ns[k]), AvgDistance(ns[k])))
  }

  /** The table `region_props_with_neighborhood_data` returns. */
  function NeighborhoodTable(columns: seq<string>, regProps: Dict<Value>, ns: seq<int>): Dict<Value>
  {
    var selected := Restrict(regProps, columns + IntensityColumns + ShapeColumns);
    Put(PutAll(selected, AvgItems(ns)), TouchKey, TouchCount)
  }

  /** `region_props_with_neighborhood_data`: a label image without labels raises at the
      lowest-label lookup; otherwise restrict, then add one average-distance key per neighbour
      count and the touching-neighbour count. */
  method RegionPropsWithNeighborhoodData(columns: seq<string>, labelImage: seq<int>, regProps: Dict<Value>, ns: seq<int>)
    returns (outcome: Outcome<Dict<Value>>)
    ensures outcome.RaisesValueError? <==> !HasLabels(labelImage)
    ensures outcome.Returns? ==> outcome.value == NeighborhoodTable(columns, regProps, ns)
  {
    if !HasLabels(labelImage) {
      return RaisesValueError;
    }
    var regionProps := NeighborhoodProps(columns, regProps, ns);
    outcome := Returns(regionProps);
  }

  /** The loops of `region_props_with_neighborhood_data` once the lowest label is known. */
  method NeighborhoodProps(columns: seq<string>, regProps: Dict<Value>, ns: seq<int>)
    returns (regionProps: Dict<Value>)
    ensures regionProps == NeighborhoodTable(columns, regProps, ns)
  {
    var all := columns + IntensityColumns + ShapeColumns;
    regionProps := [];
    for j := 0 to |regProps|
      invariant regionProps == Restrict(regProps[..j], all)
    {
      assert regProps[..j + 1] == regProps[..j] + [regProps[j]];
      RestrictConcat(regProps[..j], [regProps[j]], all);
      if regProps[j].0 in all {
        regionProps := regionProps + [regProps[j]];
      }
    }
    assert regProps[..|regProps|] == regProps;
    ghost var selected := regionProps;
    for k := 0 to |ns|
      invariant regionProps == PutAll(selected, AvgItems(ns[..k]))
    {
      assert AvgItems(ns[..k + 1])[..k] == AvgItems(ns[..k]);
      regionProps := Put(regionProps, AvgKey(ns[k]), AvgDistance(ns[k]));
    }
    assert ns[..|ns|] == ns;
    regionProps := Put(regionProps, TouchKey, TouchCount);
  }

  /** `get_regprops_from_regprops_source`: the chosen columns for "shape" or "intensity", the
      neighbourhood table for "neighborhood" alone (or its ValueError for a label image
      without labels), None for none of them. */
  function RegpropsFromSource(source: string, labelImage: seq<int>, regProps: Dict<Value>, ns: seq<int>)
    : Outcome<Option<Dict<Value>>>
  {
    var columns := SelectedColumns(source);
    if Contains(source, "shape") || Contains(source, "intensity") then Returns(Some(Restrict(regProps, columns)))
    else if Contains(source, "neighborhood") then
      if HasLabels(labelImage) then Returns(Some(NeighborhoodTable(columns, regProps, ns))) else RaisesValueError
    else Returns(None)
  }

  /** None exactly when the source names none of the three keywords; the neighbourhood path
      runs only when neither "shape" nor "intensity" is named, and then the columns are the
      base ones; the call raises exactly on that path for a label image without labels. */
  lemma RegpropsFromSourceCases(source: string, labelImage: seq<int>, regProps: Dict<Value>, ns: seq<int>)
    ensures var r := RegpropsFromSource(source, labelImage, regProps, ns);
      && (r == Returns(None) <==>
            !Contains(source, "shape") && !Contains(source, "intensity") && !Contains(source, "neighborhood"))
      && (r.RaisesValueError? <==>
            !Contains(source, "shape") && !Contains(source, "intensity") && Contains(source, "neighborhood")
            && !HasLabels(labelImage))
      && ((Contains(source, "shape") || Contains(source, "intensity")) ==>
            r == Returns(Some(Restrict(regProps, SelectedColumns(source)))))
      && (!Contains(source, "shape") && !Contains(source, "intensity") && Contains(source, "neighborhood")
            && HasLabels(labelImage) ==>
            r == Returns(Some(NeighborhoodTable(BaseColumns, regProps, ns))))
  {
    if !Contains(source, "shape") && !Contains(source, "intensity") {
      assert SelectedColumns(source) == BaseColumns;
    }
  }

  lemma AvgKeyInjective(a: int, b: int)
    requires AvgKey(a) == AvgKey(b)
    ensures a == b
  {
    var sa, sb := IntToString(a), IntToString(b);
    var p := "avg distance of ";
    assert AvgKey(a) == p + sa + " closest points";
    assert AvgKey(a)[|p|..|p| + |sa|] == sa;
    assert |sa| == |sb|;
    assert AvgKey(b)[|p|..|p| + |sb|] == sb;
    IntToStringInjective(a, b);
  }

  /** After the loop, each neighbour count's key holds its average distance. */
  lemma {:induction false} AvgItemsGet(d: Dict<Value>, ns: seq<int>, i: int)
    requires i in ns
    ensures Get(PutAll(d, AvgItems(ns)), AvgKey(i)) == Some(AvgDistance(i))
    decreases |ns|
  {
    var init := ns[..|ns| - 1];
    var last := ns[|ns| - 1];
    var before := PutAll(d, AvgItems(init));
    assert PutAll(d, AvgItems(ns)) == Put(before, AvgKey(last), AvgDistance(last)) by {
      assert AvgItems(ns)[..|ns| - 1] == AvgItems(init);
    }
    PutGet(before, AvgKey(last), AvgDistance(last), AvgKey(i));
    if last != i {
      assert AvgKey(last) != AvgKey(i) by {
        if AvgKey(last) == AvgKey(i) {
          AvgKeyInjective(last, i);
        }
      }
      InInit(ns, i);
      AvgItemsGet(d, init, i);
    }
  }

  lemma InInit<T>(s: seq<T>, x: T)
    requires x in s && x != s[|s| - 1]
    ensures x in s[..|s| - 1]
  {
    var k :| 0 <= k < |s| && s[k] == x;
    assert s[..|s| - 1][k] == x;
  }

  /** Keys that are no neighbour-count key read as before the loop. */
  lemma {:induction false} AvgItemsKeep(d: Dict<Value>, ns: seq<int>, k: string)
    requires forall i :: i in ns ==> k != AvgKey(i)
    ensures Get(PutAll(d, AvgItems(ns)), k) == Get(d, k)
    decreases |ns|
  {
    if ns != [] {
      var init := ns[..|ns| - 1];
      assert AvgItems(ns)[..|ns| - 1] == AvgItems(init);
      PutGet(PutAll(d, AvgItems(init)), AvgKey(ns[|ns| - 1]), AvgDistance(ns[|ns| - 1]), k);
      AvgItemsKeep(d, init, k);
    }
  }

  /** The neighbourhood table: the touching-neighbour count, each neighbour count's average
      distance, every chosen or measurement column as measured, and nothing else. */
  lemma NeighborhoodTableGet(columns: seq<string>, regProps: Dict<Value>, ns: seq<int>, k: string)
    ensures var t := NeighborhoodTable(columns, regProps, ns);
      && Get(t, TouchKey) == Some(TouchCount)
      && (forall i :: i in ns ==> k == AvgKey(i) ==> Get(t, k) == Some(AvgDistance(i)))
      && (k != TouchKey && (forall i :: i in ns ==> k != AvgKey(i)) ==>
            Get(t, k) == if k in columns + IntensityColumns + ShapeColumns then Get(regProps, k) else None)
  {
    var all := columns + IntensityColumns + ShapeColumns;
    var selected := Restrict(regProps, all);
    var afterLoop := PutAll(selected, AvgItems(ns));
    PutGet(afterLoop, TouchKey, TouchCount, TouchKey);
    PutGet(afterLoop, TouchKey, TouchCount, k);
    forall i | i in ns && k == AvgKey(i) ensures Get(NeighborhoodTable(columns, regProps, ns), k) == Some(AvgDistance(i)) {
      AvgItemsGet(selected, ns, i);
      assert AvgKey(i)[0] == 'a';
    }
    if k != TouchKey && forall i :: i in ns ==> k != AvgKey(i) {
      AvgItemsKeep(selected, ns, k);
      RestrictGet(regProps, all, k);
    }
  }
}
