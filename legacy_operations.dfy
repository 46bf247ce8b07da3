/** The operation widgets of the older standalone assistant: the operation gets the fixed
    positional arguments of its widget without any arity cut, the first call adds the result
    to the viewer and clears the widget's `initial_call` flag, and every later call updates
    the dialog's result layer, named after the bare operation. */
module LegacyOperations {
  import opened Wrappers
  import opened Operations

  /** A widget call of the older variant: which widget and the values of its fields. */
  datatype Request =
    | Denoise(x: real, y: real, z: real)
    | BackgroundRemoval(x: real, y: real, z: real)
    | Filter(x: real, y: real, z: real)
    | Binarize(constant: int)
    | Combine(input2: Option<InputLayer>)
    | Label
    | LabelProcessing(min: real, max: real)
    | Mesh(n: real)
    | Map(n: real)

  /** The positional arguments each widget passes. */
  function Arguments(req: Request, input1: InputLayer): seq<Arg>
  {
    var first := Pushed(input1.data);
    match req
    case Denoise(x, y, z) => [first, Output, Real(x), Real(y), Real(z)]
    case BackgroundRemoval(x, y, z) => [first, Output, Real(x), Real(y), Real(z)]
    case Filter(x, y, z) => [first, Output, Real(x), Real(y), Real(z)]
    case Binarize(constant) => [first, Output, Int(constant)]
    case Combine(input2) => [first, Pushed(SecondInput(input1, input2).data), Output]
    case Label => [first, Output]
    case LabelProcessing(lo, hi) => [first, Output, Real(lo), Real(hi)]
    case Mesh(n) => [first, Output, Real(n)]
    case Map(n) => [first, Output, Real(n)]
  }

  /** The layer a widget adds on its first call: binarize adds an image, label and
      label_processing add labels; no widget passes a translation. */
  function AddedLayer(req: Request, input1: InputLayer, output: nat): Added
  {
    var labels := req.Label? || req.LabelProcessing?;
    var colormap :=
      if labels || req.Binarize? then None
      else if req.Map? then Some("magenta")
      else if req.Mesh? then Some("green")
      else Some(input1.colormap);
    Added(output, labels, colormap, None, None, if req.Mesh? then Some("additive") else None)
  }

  /** The contrast limits a widget assigns when updating, if it assigns any. */
  function ContrastLimits(req: Request, minIntensity: real, maxIntensity: real): Option<(real, real)>
  {
    match req
    case Binarize(_) => Some((0.0, 1.0))
    case Label => None
    case LabelProcessing(_, _) => None
    case Mesh(_) => Some(MeshRange(minIntensity, maxIntensity))
    case _ => Some((0.0, FixMaxIntensity(maxIntensity)))
  }

  /** The widget function with its `initial_call` flag, its viewer and the `layer`
      attribute of its `self` (null while unset). */
  class Dialog {
    const viewer: Viewer
    var initialCall: bool
    var layer: ResultLayer?

    constructor (viewer: Viewer)
      ensures this.viewer == viewer && initialCall && layer == null
    {
      this.viewer := viewer;
      initialCall := true;
      layer := null;
    }
  }

  /** One call of a widget. Without an input nothing happens. An unknown operation, or more
      arguments than the operation takes, raises before anything changes. Otherwise the first
      call adds the result and clears `initial_call`; a later call replaces the data, bare
      operation name and contrast limits (where the widget sets them) of the dialog's layer,
      and raises without a change while that layer is unset. */
  method Run(dialog: Dialog, req: Request, input1: Option<InputLayer>, operationName: string, ops: Catalogue,
             output: nat, minIntensity: real, maxIntensity: real)
    returns (outcome: Outcome)
    modifies dialog, dialog.viewer, dialog.layer
    ensures input1.None? ==> outcome == Skipped
    ensures input1.Some? && operationName !in ops ==> outcome == Failed
    ensures input1.Some? && operationName in ops && ops[operationName].paramCount < |Arguments(req, input1.value)| ==>
      outcome == Failed
    ensures outcome.Skipped? || outcome.Failed? ==>
      && dialog.viewer.added == old(dialog.viewer.added) && dialog.initialCall == old(dialog.initialCall)
      && dialog.layer == old(dialog.layer) && (dialog.layer != null ==> unchanged(dialog.layer))
    ensures outcome.Called? ==> outcome.args == Arguments(req, input1.value) && dialog.layer == old(dialog.layer)
    ensures outcome.Called? && old(dialog.initialCall) ==>
      && dialog.viewer.added == old(dialog.viewer.added) + [AddedLayer(req, input1.value, output)] && !dialog.initialCall
      && (old(dialog.layer) != null ==> unchanged(old(dialog.layer)))
    ensures outcome.Called? && !old(dialog.initialCall) ==>
      && dialog.layer != null && !dialog.initialCall
      && dialog.viewer.added == old(dialog.viewer.added)
      && dialog.layer.data == output
      && dialog.layer.name == ops[operationName].name
      && dialog.layer.translate == old(dialog.layer.translate)
      && dialog.layer.contrastLimits ==
           (match ContrastLimits(req, minIntensity, maxIntensity)
            case Some(c) => c
            case None => old(dialog.layer.contrastLimits))
    ensures input1.Some? && operationName in ops && |Arguments(req, input1.value)| <= ops[operationName].paramCount ==>
      (outcome.Called? <==> old(dialog.initialCall) || old(dialog.layer) != null)
  {
    if input1.None? {
      return Skipped;
    }
    var in1 := input1.value;
    if operationName !in ops {
      return Failed;
    }
    var operation := ops[operationName];
    var arguments := Arguments(req, in1);
    if operation.paramCount < |arguments| {
      return Failed;
    }
    if dialog.initialCall {
      dialog.viewer.added := dialog.viewer.added + [AddedLayer(req, in1, output)];
      dialog.initialCall := false;
    } else {
      var layer := dialog.layer;
      if layer == null {
        return Failed;
      }
      layer.data := output;
      layer.name := operation.name;
      var clims := ContrastLimits(req, minIntensity, maxIntensity);
      if clims.Some? {
        layer.contrastLimits := clims.value;
      }
    }
    return Called(arguments);
  }

  /** The widgets pass at most five arguments; an operation taking at least that many is
      always called with all of them, and the newer variant's cut then changes nothing. */
  lemma ArityCutAgrees(req: Request, input1: InputLayer, paramCount: nat)
    requires |Arguments(req, input1)| <= paramCount
    ensures CallArguments(paramCount, Arguments(req, input1)) == Arguments(req, input1)
    ensures |Arguments(req, input1)| <= 5
  {
  }
}
