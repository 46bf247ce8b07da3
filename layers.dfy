/** The abstract viewer layer the script generators read: its name, kind, visibility, data
    rank, optional source filename and optional operation dialog (the widgets that produced
    it) as its metadata holds them, its contrast limits, already printed as text, and the
    `filename` and `dialog` attributes a layer object may carry besides its metadata. */
module Layers {
  import opened Wrappers
  import opened Strings

  /** What a dialog widget currently holds: a layer, a string, any other value (printed
      with str(), None included), or a function object. */
  datatype WidgetValue =
    | WLayer(id: nat)
    | WText(s: string)
    | WScalar(text: string)
    | WFunction(name: string, text: string)

  datatype Widget = Widget(name: string, value: WidgetValue)

  /** A plain (non-`cle`) function behind a dialog: its module, qualified name, name and
      positional parameter names. */
  datatype PlainFunction = PlainFunction(moduleName: string, qualname: string, name: string, params: seq<string>)

  /** The dialog that produced a layer: the value of its operation widget (None when the
      dialog has no such widget), the function it wraps, and its widgets in order. The napari
      generators read that widget as `"operation_name"`, the older standalone script walk as
      `"operation"`. */
  datatype Dialog = Dialog(operationName: Option<string>, func: PlainFunction, widgets: seq<Widget>)

  /** `filename` and `dialog` are the entries of the layer's metadata; `attrFilename` and
      `attrDialog` are the attributes of the same names, None when the layer object has no
      such attribute. */
  datatype Layer = Layer(
    id: nat,
    name: string,
    isLabels: bool,
    visible: bool,
    ndim: nat,
    filename: Option<string>,
    dialog: Option<Dialog>,
    climLo: string,
    climHi: string,
    attrFilename: Option<string>,
    attrDialog: Option<Dialog>)

  /** The `cle` operations: operation name to its positional parameter names. */
  type Catalogue = map<string, seq<string>>

  /** The variable name of the n-th image in generated code. */
  function ImageName(n: int): string
  {
    "image" + IntToString(n)
  }

  ghost predicate IsFirstIndex(layers: seq<Layer>, id: nat, r: Option<nat>)
  {
    match r
    case Some(i) => i < |layers| && layers[i].id == id && forall j :: 0 <= j < i ==> layers[j].id != id
    case None => forall j :: 0 <= j < |layers| ==> layers[j].id != id
  }

  function IndexFrom(layers: seq<Layer>, id: nat, start: nat): (r: Option<nat>)
    requires start <= |layers|
    requires forall j :: 0 <= j < start ==> layers[j].id != id
    ensures IsFirstIndex(layers, id, r)
    decreases |layers| - start
  {
    if start == |layers| then None
    else if layers[start].id == id then Some(start)
    else IndexFrom(layers, id, start + 1)
  }

  /** The position of the first layer with this identity, as `_get_index_of_layer` finds it. */
  function IndexOf(layers: seq<Layer>, id: nat): (r: Option<nat>)
    ensures IsFirstIndex(layers, id, r)
  {
    IndexFrom(layers, id, 0)
  }

  /** Only one answer meets the first-index description. */
  lemma FirstIndexUnique(layers: seq<Layer>, id: nat, r1: Option<nat>, r2: Option<nat>)
    requires IsFirstIndex(layers, id, r1) && IsFirstIndex(layers, id, r2)
    ensures r1 == r2
  {
  }

  /** `_get_index_of_layer`: a linear search for the first equal layer; None when absent. */
  method GetIndexOfLayer(layers: seq<Layer>, id: nat) returns (r: Option<nat>)
    ensures r.Some? ==> r.value < |layers| && layers[r.value].id == id
    ensures r.Some? ==> forall j :: 0 <= j < r.value ==> layers[j].id != id
    ensures r.None? ==> forall j :: 0 <= j < |layers| ==> layers[j].id != id
  {
    var i := 0;
    while i < |layers|
      invariant 0 <= i <= |layers|
      invariant forall j :: 0 <= j < i ==> layers[j].id != id
    {
      if layers[i].id == id {
        return Some(i);
      }
      i := i + 1;
    }
    return None;
  }

  /** str() of the search result: Python prints a missing index as "None". */
  function IndexText(r: Option<nat>): string
  {
    match r
    case Some(i) => NatToString(i)
    case None => "None"
  }

  /** The widgets rendered for a function with `count` parameters: only the first `count`. */
  function Kept(ws: seq<Widget>, count: nat): (k: seq<Widget>)
    ensures |k| == if |ws| < count then |ws| else count
    ensures k == ws[..|k|]
  {
    if |ws| < count then ws else ws[..count]
  }
}
