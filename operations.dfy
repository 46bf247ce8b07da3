/** The operation widgets of the napari plugin: each widget pushes its input, calls the
    chosen GPU operation with the widget's values (cut to the operation's arity), and either
    adds the result to the viewer or updates the dialog's result layer in place. GPU values
    are abstract: data is a token, and the minimum and maximum of a result are given. */
module Operations {
  import opened Wrappers
  import opened Dicts

  /** A chosen operation as `cle.operation` returns it: its `__name__` and the number of
      parameters in its signature. */
  datatype Operation = Operation(name: string, paramCount: nat)

  /** The operations by the name the chooser shows. */
  type Catalogue = map<string, Operation>

  /** A viewer layer used as a widget input: its data, colormap and translation. */
  datatype InputLayer = InputLayer(data: nat, colormap: string, translate: seq<real>)

  /** One positional argument of an operation call: pushed layer data, the freshly created
      output buffer, or a widget number. */
  datatype Arg = Pushed(data: nat) | Output | Real(r: real) | Int(i: int)

  /** What a widget call did: nothing (no input), raised before changing anything, or called
      the operation with these arguments. */
  datatype Outcome = Skipped | Failed | Called(args: seq<Arg>)

  /** A layer added to the viewer: its data, whether it is a labels layer, and its colormap,
      translation, interpolation and blending when given. */
  datatype Added = Added(data: nat, isLabels: bool, colormap: Option<string>, translate: Option<seq<real>>,
    interpolation: Option<string>, blending: Option<string>)

  /** The viewer, as the widgets see it: the layers they add, in order. */
  class Viewer {
    var added: seq<Added>

    constructor ()
      ensures added == []
    {
      added := [];
    }
  }

  /** The result layer a dialog updates. */
  class ResultLayer {
    var data: nat
    var name: string
    var contrastLimits: (real, real)
    var translate: seq<real>

    constructor (data: nat, name: string, contrastLimits: (real, real), translate: seq<real>)
      ensures this.data == data && this.name == name
      ensures this.contrastLimits == contrastLimits && this.translate == translate
    {
      this.data := data;
      this.name := name;
      this.contrastLimits := contrastLimits;
      this.translate := translate;
    }
  }

  /** The widget's `self`: its viewer, and its `layer` attribute (null while the attribute is
      not set; the layer dialog sets it from outside). */
  class Dialog {
    const viewer: Viewer
    var layer: ResultLayer?

    constructor (viewer: Viewer)
      ensures this.viewer == viewer && layer == null
    {
      this.viewer := viewer;
      layer := null;
    }
  }

  // ---------------------------------------------------------------------------------------
  // Pure rules

  /** `_call_operation_ignoring_to_many_arguments`: with more arguments than parameters only
      the first `paramCount` are passed, otherwise all of them. */
  function CallArguments(paramCount: nat, arguments: seq<Arg>): (r: seq<Arg>)
    ensures |r| == if paramCount < |arguments| then paramCount else |arguments|
    ensures r == arguments[..|r|]
  {
    if paramCount < |arguments| then arguments[..paramCount] else arguments
  }

  /** An upper contrast limit of 0 becomes 1, any other is kept: the range (0, r) is never
      empty. */
  function FixMaxIntensity(maxIntensity: real): (r: real)
    ensures r != 0.0
    ensures maxIntensity != 0.0 ==> r == maxIntensity
  {
    if maxIntensity == 0.0 then 1.0 else maxIntensity
  }

  /** The mesh range: equal minimum and maximum give maximum = minimum + 1. */
  function MeshRange(minIntensity: real, maxIntensity: real): (r: (real, real))
    ensures r.0 == minIntensity && r.1 != r.0
    ensures maxIntensity != minIntensity ==> r.1 == maxIntensity
    ensures maxIntensity == minIntensity ==> r.1 == minIntensity + 1.0
  {
    if maxIntensity - minIntensity == 0.0 then (minIntensity, minIntensity + 1.0) else (minIntensity, maxIntensity)
  }

  // ---------------------------------------------------------------------------------------
  // The widgets

  /** A widget call: which widget and the values of its own fields. */
  datatype Request =
    | Denoise(x: real, y: real, z: real)
    | BackgroundRemoval(x: real, y: real, z: real)
    | Filter(x: real, y: real, z: real)
    | Binarize(radiusX: int, radiusY: int, radiusZ: int)
    | Combine(input2: Option<InputLayer>)
    | Label
    | LabelProcessing(min: real, max: real)
    | LabelMeasurements(input2: Option<InputLayer>, n: real)
    | Mesh(n: real)
    | Map(n: real)

  /** The second input: the first one when the widget has none. */
  function SecondInput(input1: InputLayer, input2: Option<InputLayer>): InputLayer
  {
    match input2
    case Some(l) => l
    case None => input1
  }

  /** The argument list each widget builds before the arity cut. */
  function Arguments(req: Request, input1: InputLayer): seq<Arg>
  {
    var first := Pushed(input1.data);
    match req
    case Denoise(x, y, z) => [first, Output, Real(x), Real(y), Real(z)]
    case BackgroundRemoval(x, y, z) => [first, Output, Real(x), Real(y), Real(z)]
    case Filter(x, y, z) => [first, Output, Real(x), Real(y), Real(z)]
    case Binarize(rx, ry, rz) => [first, Output, Int(rx), Int(ry), Int(ry)]
    case Combine(input2) => [first, Pushed(SecondInput(input1, input2).data), Output]
    case Label => [first, Output]
    case LabelProcessing(lo, hi) => [first, Output, Real(lo), Real(hi)]
    case LabelMeasurements(input2, n) => [first, Pushed(SecondInput(input1, input2).data), Output, Real(n)]
    case Mesh(n) => [first, Output, Real(n)]
    case Map(n) => [first, Output, Real(n)]
  }

  /** The widgets that produce labels. */
  predicate LabelsResult(req: Request)
  {
    req.Binarize? || req.Label? || req.LabelProcessing?
  }

  /** The layer a widget adds on its first showing. */
  function AddedLayer(req: Request, input1: InputLayer, output: nat): Added
  {
    var colormap :=
      if LabelsResult(req) then None
      else if req.LabelMeasurements? || req.Map? then Some("turbo")
      else if req.Mesh? then Some("green")
      else Some(input1.colormap);
    var interpolation := if req.LabelMeasurements? || req.Map? then Some("nearest") else None;
    var blending := if req.Mesh? then Some("additive") else None;
    Added(output, LabelsResult(req), colormap, Some(input1.translate), interpolation, blending)
  }

  /** Every added layer sits where the first input sits. Labels come with no display
      settings; the measurement and map images are turbo-coloured with nearest
      interpolation, the mesh is green and blended additively, and every other image takes
      the first input's colormap. */
  lemma AddedLayerAppearance(req: Request, input1: InputLayer, output: nat)
    ensures var a := AddedLayer(req, input1, output);
      && a.data == output && a.translate == Some(input1.translate)
      && (a.isLabels <==> req.Binarize? || req.Label? || req.LabelProcessing?)
      && (a.isLabels ==> a.colormap.None? && a.interpolation.None? && a.blending.None?)
      && ((req.LabelMeasurements? || req.Map?) ==> a.colormap == Some("turbo") && a.interpolation == Some("nearest"))
      && (req.Mesh? ==> a.colormap == Some("green") && a.blending == Some("additive"))
      && ((req.Denoise? || req.BackgroundRemoval? || req.Filter? || req.Combine?) ==>
            a.colormap == Some(input1.colormap) && a.interpolation.None? && a.blending.None?)
  {
  }

  /** The contrast limits a widget assigns when updating, if it assigns any. */
  function ContrastLimits(req: Request, minIntensity: real, maxIntensity: real): (r: Option<(real, real)>)
  {
    match req
    case Binarize(_, _, _) => Some((0.0, 1.0))
    case Label => None
    case LabelProcessing(_, _) => None
    case Mesh(_) => Some(MeshRange(minIntensity, maxIntensity))
    case _ => Some((0.0, FixMaxIntensity(maxIntensity)))
  }

  /** The name an updated layer gets. */
  function ResultName(op: Operation): string
  {
    "Result of " + op.name
  }

  /** One call of a widget: `output` is the pulled result, `minIntensity` and
      `maxIntensity` what the device reports for it. Without an input nothing happens; an
      unknown operation raises before anything changes; otherwise the operation is called with
      the arguments cut to its arity, and the result is added to the viewer when the dialog
      has no layer yet, or replaces the data, name, contrast limits (where the widget sets
      them) and translation of the dialog's layer. */
  method Run(dialog: Dialog, req: Request, input1: Option<InputLayer>, operationName: string, ops: Catalogue,
             output: nat, minIntensity: real, maxIntensity: real)
    returns (outcome: Outcome)
    modifies dialog.viewer, dialog.layer
    ensures input1.None? ==> outcome == Skipped
    ensures input1.Some? && operationName !in ops ==> outcome == Failed
    ensures outcome.Skipped? || outcome.Failed? ==>
      dialog.viewer.added == old(dialog.viewer.added) && (dialog.layer != null ==> unchanged(dialog.layer))
    ensures input1.Some? && operationName in ops ==>
      outcome == Called(CallArguments(ops[operationName].paramCount, Arguments(req, input1.value)))
    ensures input1.Some? && operationName in ops && dialog.layer == null ==>
      dialog.viewer.added == old(dialog.viewer.added) + [AddedLayer(req, input1.value, output)]
    ensures input1.Some? && operationName in ops && dialog.layer != null ==>
      && dialog.viewer.added == old(dialog.viewer.added)
      && dialog.layer.data == output
      && dialog.layer.name == ResultName(ops[operationName])
      && dialog.layer.contrastLimits ==
           (match ContrastLimits(req, minIntensity, maxIntensity)
            case Some(c) => c
            case None => old(dialog.layer.contrastLimits))
      && dialog.layer.translate == input1.value.translate
  {
    if input1.None? {
      return Skipped;
    }
    var in1 := input1.value;
    if operationName !in ops {
      return Failed;
    }
    var operation := ops[operationName];
    var arguments := CallArguments(operation.paramCount, Arguments(req, in1));
    var layer := dialog.layer;
    if layer == null {
      dialog.viewer.added := dialog.viewer.added + [AddedLayer(req, in1, output)];
    } else {
      layer.data := output;
      layer.name := ResultName(operation);
      var clims := ContrastLimits(req, minIntensity, maxIntensity);
      if clims.Some? {
        layer.contrastLimits := clims.value;
      }
      layer.translate := in1.translate;
    }
    return Called(arguments);
  }

  /** Every contrast range a widget assigns is non-empty. */
  lemma ContrastRangeNonEmpty(req: Request, minIntensity: real, maxIntensity: real)
    ensures var c := ContrastLimits(req, minIntensity, maxIntensity);
      c.Some? ==> c.value.0 != c.value.1
  {
  }

  /** binarize passes radius_y in the third radius position: the call does not depend on
      radius_z. */
  lemma BinarizeIgnoresRadiusZ(input1: InputLayer, rx: int, ry: int, rz: int, rz': int, paramCount: nat)
    ensures var a := CallArguments(paramCount, Arguments(Binarize(rx, ry, rz), input1));
      && a == CallArguments(paramCount, Arguments(Binarize(rx, ry, rz'), input1))
      && (|a| == 5 ==> a[3] == a[4] == Int(ry))
  {
  }

  /** combine and label_measurements pair the first input with itself when the second is
      missing. */
  lemma MissingSecondInputPairsFirst(input1: InputLayer, n: real)
    ensures Arguments(Combine(None), input1) == Arguments(Combine(Some(input1)), input1)
    ensures Arguments(Combine(None), input1)[1] == Pushed(input1.data)
    ensures Arguments(LabelMeasurements(None, n), input1)[1] == Pushed(input1.data)
  {
  }

  // ---------------------------------------------------------------------------------------
  // table_to_widget

  /** A measurement table: column name to the column's values, printed with `str`. */
  type Table = Dict<seq<string>>

  /** What a grid cell holds once every column is written: row 0 the column name, row j + 1
      the column's j-th value, nothing below the column's end. */
  function CellAt(table: Table, r: nat, c: nat): Option<string>
    requires c < |table|
  {
    if r == 0 then Some(table[c].0)
    else if r - 1 < |table[c].1| then Some(table[c].1[r - 1])
    else None
  }

  /** `QTableWidget.setItem`: a cell outside the grid is ignored. */
  method SetItem(view: array2<Option<string>>, r: int, c: int, item: Option<string>)
    modifies view
    ensures forall a, b :: 0 <= a < view.Length0 && 0 <= b < view.Length1 ==>
      view[a, b] == if a == r && b == c then item else old(view[a, b])
  {
    if 0 <= r < view.Length0 && 0 <= c < view.Length1 {
      view[r, c] := item;
    }
  }

  /** The nested loops of `table_to_widget` on a grid of `rows` rows and one column per
      table column. The dict's keys are distinct, so `table.get(column)` is the column's own
      values. */
  method FillTable(table: Table, rows: nat) returns (view: array2<Option<string>>)
    ensures fresh(view) && view.Length0 == rows && view.Length1 == |table|
    ensures forall r, c :: 0 <= r < rows && 0 <= c < |table| ==> view[r, c] == CellAt(table, r, c)
  {
    view := new Option<string>[rows, |table|]((r, c) => None);
    for i := 0 to |table|
      invariant forall r, c :: 0 <= r < rows && 0 <= c < |table| ==>
        view[r, c] == if c < i then CellAt(table, r, c) else None
    {
      SetItem(view, 0, i, Some(table[i].0));
      var values := table[i].1;
      for j := 0 to |values|
        invariant forall r, c :: 0 <= r < rows && 0 <= c < |table| ==>
          view[r, c] == if c < i || (c == i && r <= j) then CellAt(table, r, c) else None
      {
        SetItem(view, j + 1, i, Some(values[j]));
      }
    }
  }

  /** The row count `table_to_widget` asks for: the length of the first column. */
  function AsWrittenRows(table: Table): nat
    requires |table| > 0
  {
    |table[0].1|
  }

  /** `table_to_widget` as written: a grid of `len(first column)` rows; null for an empty
      table, where `next` raises. */
  method TableToWidget(table: Table) returns (view: array2?<Option<string>>)
    ensures |table| == 0 <==> view == null
    ensures view != null ==> fresh(view) && view.Length0 == AsWrittenRows(table) && view.Length1 == |table|
    ensures view != null ==> forall r, c :: 0 <= r < view.Length0 && 0 <= c < |table| ==> view[r, c] == CellAt(table, r, c)
  {
    if |table| == 0 {
      return null;
    }
    view := FillTable(table, |table[0].1|);
  }

  /** The header row takes one row of the grid, so the last value of every column of equal
      length falls outside it: a one-row measurement table shows its column name only. */
  lemma LastValueNotShown()
    ensures var table: Table := [("area", ["12"])];
      forall r, c :: 0 <= r < AsWrittenRows(table) && 0 <= c < |table| ==> CellAt(table, r, c) != Some("12")
  {
    var table: Table := [("area", ["12"])];
    assert AsWrittenRows(table) == 1;
    assert CellAt(table, 0, 0) == Some("area");
    assert "area" != "12" by {
      assert "area"[0] != "12"[0];
    }
  }

  /** The length of the longest column. */
  function LongestColumn(table: Table): (n: nat)
    ensures forall c :: 0 <= c < |table| ==> |table[c].1| <= n
    ensures |table| > 0 ==> exists c :: 0 <= c < |table| && |table[c].1| == n
  {
    if table == [] then 0
    else
      var rest := LongestColumn(table[1..]);
      assert forall c :: 1 <= c < |table| ==> table[c] == table[1..][c - 1];
      if |table[0].1| >= rest then |table[0].1| else rest
  }

  /** Enough rows for the header and the longest column. */
  function AllRows(table: Table): nat
  {
    1 + LongestColumn(table)
  }

  /** `table_to_widget` with one row for the header and one per value. */
  method TableToWidgetAllRows(table: Table) returns (view: array2?<Option<string>>)
    ensures |table| == 0 <==> view == null
    ensures view != null ==> fresh(view) && view.Length0 == AllRows(table) && view.Length1 == |table|
    ensures view != null ==> forall r, c :: 0 <= r < view.Length0 && 0 <= c < |table| ==> view[r, c] == CellAt(table, r, c)
  {
    if |table| == 0 {
      return null;
    }
    view := FillTable(table, AllRows(table));
  }

  /** With the header row counted every column name and every value has its own cell: the
      name in row 0, value j in row j + 1. */
  lemma EveryValueShown(table: Table, c: nat, j: nat)
    requires c < |table| && j < |table[c].1|
    ensures j + 1 < AllRows(table) && CellAt(table, j + 1, c) == Some(table[c].1[j])
    ensures 0 < AllRows(table) && CellAt(table, 0, c) == Some(table[c].0)
  {
  }
}
