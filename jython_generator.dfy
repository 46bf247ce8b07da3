/** The Jython/cpython script dialect of the first script generator: `cle` calls with
    positional arguments, an explicit output buffer per call and `cle.imshow` display. */
module JythonGenerator {
  import opened Wrappers
  import opened Strings
  import opened Layers

  function Comment(text: string): string
  {
    "#" + text
  }

  function Header(version: string): string
  {
    "# To make this " + "script run in " + "cpython, " + "install " + "pyclesperanto_prototype:\n"
    + "# pip install " + "pyclesperanto_prototype\n"
    + "# Read more: \n"
    + "# " + "https://clesperanto.net\n"
    + "# \n"
    + "# To make this " + "script run in " + "Fiji, please " + "activate the " + "clij, \n"
    + "# clij2 and " + "clijx-assistant " + "update sites in " + "your Fiji. \n"
    + "# Read more: \n"
    + "# " + "https://clij.git" + "hub.io/assistant\n"
    + "# \n"
    + "# Generator (P) " + "version: " + version + "\n"
    + "# \n"
    + "import " + "pyclesperanto_prototype " + "as cle\n\n"
  }

  /** The file a pushed layer is read from: the metadata filename with every backslash
      turned into '/', or the layer name when there is no filename. */
  function SourceName(layer: Layer): (f: string)
    ensures layer.filename.None? ==> f == layer.name
    ensures layer.filename.Some? ==> '\\' !in f && |f| == |layer.filename.value|
    ensures layer.filename.Some? && '\\' !in layer.filename.value ==> f == layer.filename.value
  {
    match layer.filename
    case Some(name) =>
      ReplaceCharFacts(name, '\\', '/');
      ReplaceAll(name, "\\", "/")
    case None => layer.name
  }

  function Push(layer: Layer, n: nat): string
  {
    ImageName(n) + " = cle.imread('" + SourceName(layer) + "')\n"
  }

  /** "cle." + the operation's name, with "please_select" replaced by "copy". */
  function MethodName(op: string): (m: string)
    ensures StartsWith(m, "cle.")
    ensures !Contains(op, "please_select") ==> m == "cle." + op
  {
    var pat := "please_select";
    var s := "cle." + op;
    ReplaceAfterPrefix("cle.", op, pat, "copy");
    ReplaceAbsent(op, pat, "copy");
    ReplaceAll(s, pat, "copy")
  }

  /** How one widget value is written as a call argument: a layer as `image<index>` (the
      index printed as "None" when the layer is not in the list), the `operation_name`
      string as the layer's own image, other strings single-quoted, anything else by str(). */
  function RenderArg(layers: seq<Layer>, w: Widget, n: nat): string
  {
    match w.value
    case WLayer(id) => "image" + IndexText(IndexOf(layers, id))
    case WText(s) => if w.name != "operation_name" then "'" + s + "'" else ImageName(n)
    case WScalar(t) => t
    case WFunction(_, t) => t
  }

  function RenderedArgs(layers: seq<Layer>, ws: seq<Widget>, n: nat): (r: seq<string>)
    ensures |r| == |ws|
    ensures forall k :: 0 <= k < |ws| ==> r[k] == RenderArg(layers, ws[k], n)
  {
    seq(|ws|, k requires 0 <= k < |ws| => RenderArg(layers, ws[k], n))
  }

  /** The rendering of the first layer-valued widget, if any. */
  function FirstImage(layers: seq<Layer>, ws: seq<Widget>, n: nat): (r: Option<string>)
    ensures r.None? <==> forall k :: 0 <= k < |ws| ==> !ws[k].value.WLayer?
    ensures r.Some? ==> exists k :: (0 <= k < |ws| && ws[k].value.WLayer? && r.value == RenderArg(layers, ws[k], n)
      && forall j :: 0 <= j < k ==> !ws[j].value.WLayer?)
    decreases |ws|
  {
    if |ws| == 0 then None
    else if ws[0].value.WLayer? then Some(RenderArg(layers, ws[0], n))
    else
      var r := FirstImage(layers, ws[1..], n);
      assert forall k :: 1 <= k < |ws| ==> ws[k] == ws[1..][k - 1];
      r
  }

  /** One widget more: the first image found so far stays the first. */
  lemma {:induction false} FirstImageSnoc(layers: seq<Layer>, ws: seq<Widget>, w: Widget, n: nat)
    ensures FirstImage(layers, ws + [w], n) ==
      if FirstImage(layers, ws, n).Some? then FirstImage(layers, ws, n)
      else if w.value.WLayer? then Some(RenderArg(layers, w, n))
      else None
    decreases |ws|
  {
    if |ws| > 0 {
      assert (ws + [w])[1..] == ws[1..] + [w];
      FirstImageSnoc(layers, ws[1..], w, n);
    }
  }

  /** One argument as `_execute` writes it, looking the layer's position up in the list. */
  method RenderWidget(layers: seq<Layer>, w: Widget, n: nat) returns (piece: string)
    ensures piece == RenderArg(layers, w, n)
  {
    match w.value {
      case WLayer(id) =>
        var index := GetIndexOfLayer(layers, id);
        FirstIndexUnique(layers, id, index, IndexOf(layers, id));
        piece := "image" + IndexText(index);
      case WText(s) =>
        if w.name != "operation_name" {
          piece := "'" + s + "'";
        } else {
          piece := ImageName(n);
        }
      case WScalar(t) =>
        piece := t;
      case WFunction(_, t) =>
        piece := t;
    }
  }

  /** The call block of a layer made by an operation dialog; None where Python raises:
      an operation the catalogue does not know (no such `cle` function), or no
      layer-valued argument, since the buffer line concatenates `None`. */
  function ExecuteSpec(cat: Catalogue, layers: seq<Layer>, layer: Layer, n: nat): Option<string>
    requires layer.dialog.Some?
  {
    var d := layer.dialog.value;
    if d.operationName.None? || d.operationName.value !in cat then None
    else
      var op := d.operationName.value;
      var kept := Kept(d.widgets, |cat[op]|);
      match FirstImage(layers, kept, n)
      case None => None
      case Some(first) => Some(Block(layer.name, n, op, first, RenderedArgs(layers, kept, n)))
  }

  /** The text of a call block: the layer comment, the output buffer, then the call. */
  function Block(name: string, n: nat, op: string, first: string, args: seq<string>): string
  {
    Comment(" Layer " + name) + "\n"
    + (ImageName(n) + " = cle.create_like(" + first + ")\n" + (CallHead(op, n) + Join(", ", args) + ")\n"))
  }

  /** The start of the call line: the result is assigned to the layer's own image. */
  function CallHead(op: string, n: nat): string
  {
    ImageName(n) + " = " + MethodName(op) + "("
  }

  /** The loop of `_execute` over the widgets: those within the parameter count are
      rendered after `head`, separated by commas, and the first image argument is
      remembered. */
  method RenderCall(layers: seq<Layer>, widgets: seq<Widget>, count: nat, n: nat, head: string)
    returns (command: string, firstImage: Option<string>)
    ensures command == head + Join(", ", RenderedArgs(layers, Kept(widgets, count), n))
    ensures firstImage == FirstImage(layers, Kept(widgets, count), n)
  {
    command := head;
    firstImage := None;
    var putComma := false;
    ghost var kept := Kept(widgets, count);
    ghost var args := RenderedArgs(layers, kept, n);
    ghost var m: nat := 0;
    var i: nat := 0;
    while i < |widgets|
      invariant i <= |widgets|
      invariant m == if i < |kept| then i else |kept|
      invariant putComma == (m > 0)
      invariant command == head + Join(", ", args[..m])
      invariant firstImage == FirstImage(layers, kept[..m], n)
    {
      if i < count {
        var comma := "";
        if putComma {
          comma := ", ";
        }
        putComma := true;
        var w := widgets[i];
        var piece := RenderWidget(layers, w, n);
        CallStep(layers, kept, i, n, head, comma);
        if w.value.WLayer? && firstImage.None? {
          firstImage := Some(piece);
        }
        command := command + comma + piece;
        m := m + 1;
      }
      i := i + 1;
    }
    assert args[..|kept|] == args && kept[..|kept|] == kept;
  }

  /** One rendered widget appended to the call text and to the search for the first image
      argument. */
  lemma CallStep(layers: seq<Layer>, kept: seq<Widget>, i: nat, n: nat, head: string, comma: string)
    requires i < |kept|
    requires comma == if i > 0 then ", " else ""
    ensures var args := RenderedArgs(layers, kept, n);
      head + Join(", ", args[..i]) + comma + RenderArg(layers, kept[i], n) == head + Join(", ", args[..i + 1])
    ensures FirstImage(layers, kept[..i + 1], n) ==
      if FirstImage(layers, kept[..i], n).Some? then FirstImage(layers, kept[..i], n)
      else if kept[i].value.WLayer? then Some(RenderArg(layers, kept[i], n))
      else None
  {
    var args := RenderedArgs(layers, kept, n);
    var piece := RenderArg(layers, kept[i], n);
    var joined := Join(", ", args[..i]);
    TakeSnoc(args, i);
    JoinSnoc(", ", args[..i], piece);
    assert Join(", ", args[..i + 1]) == joined + (comma + piece) by {
      if i > 0 {
        AppendAssoc(joined, ", ", piece);
      }
    }
    AppendAssoc(head, joined, comma + piece);
    AppendAssoc(head + joined, comma, piece);
    FirstImageSnoc(layers, kept[..i], kept[i], n);
    TakeSnoc(kept, i);
  }

  /** `_execute`: walks the dialog's widgets, rendering those within the operation's
      parameter count, separated by commas, and remembers the first image argument. */
  method Execute(cat: Catalogue, layers: seq<Layer>, layer: Layer, n: nat) returns (r: Option<string>)
    requires layer.dialog.Some?
    ensures r == ExecuteSpec(cat, layers, layer, n)
  {
    var d := layer.dialog.value;
    if d.operationName.None? || d.operationName.value !in cat {
      return None;
    }
    var op := d.operationName.value;
    var parameterNames := cat[op];
    var command, firstImage := RenderCall(layers, d.widgets, |parameterNames|, n, CallHead(op, n));
    if firstImage.None? {
      return None;
    }
    command := command + ")\n";
    command := ImageName(n) + " = cle.create_like(" + firstImage.value + ")\n" + command;
    command := Comment(" Layer " + layer.name) + "\n" + command;
    return Some(command);
  }

  /** The display block: labels are shown as such, images with their contrast limits;
      data of more than two dimensions is shown as its maximum projection along z. */
  function Pull(layer: Layer, n: nat): string
  {
    var isLabels := if layer.isLabels then "True" else "False";
    var intensityConfig := if layer.isLabels then "" else ", " + layer.climLo + ", " + layer.climHi;
    var whatToShow := if layer.ndim > 2 then "cle.maximum_z_projection(" + ImageName(n) + ")" else ImageName(n);
    var start := Comment(" show result") + "\n" + "cle.imshow(" + whatToShow + ", '";
    start + layer.name + ("', " + isLabels + intensityConfig + ")\n\n")
  }

  function FileEnding(): string
  {
    ".py"
  }

  /** A known operation fails exactly when none of the rendered widgets holds a layer: the
      buffer line has no guard for a missing image argument. */
  lemma ExecuteNeedsImage(cat: Catalogue, layers: seq<Layer>, layer: Layer, n: nat)
    requires layer.dialog.Some? && layer.dialog.value.operationName.Some?
    requires layer.dialog.value.operationName.value in cat
    ensures var kept := Kept(layer.dialog.value.widgets, |cat[layer.dialog.value.operationName.value]|);
      ExecuteSpec(cat, layers, layer, n).None? <==> forall k :: 0 <= k < |kept| ==> !kept[k].value.WLayer?
  {
  }

  /** A successful block starts with the layer comment, fills a buffer shaped like the first
      image argument, assigns the call to `image{n}`, and lists the rendered widgets
      starting with the first one, never with a comma. */
  lemma ExecuteLayout(cat: Catalogue, layers: seq<Layer>, layer: Layer, n: nat)
    requires layer.dialog.Some?
    requires ExecuteSpec(cat, layers, layer, n).Some?
    ensures var r := ExecuteSpec(cat, layers, layer, n).value;
      var op := layer.dialog.value.operationName.value;
      var kept := Kept(layer.dialog.value.widgets, |cat[op]|);
      var firstArg := if |kept| > 0 then RenderArg(layers, kept[0], n) else "";
      && StartsWith(r, Comment(" Layer " + layer.name) + "\n")
      && Contains(r, ImageName(n) + " = cle.create_like(" + FirstImage(layers, kept, n).value + ")\n")
      && Contains(r, CallHead(op, n) + firstArg)
      && EndsWith(r, ")\n")
  {
    var op := layer.dialog.value.operationName.value;
    var kept := Kept(layer.dialog.value.widgets, |cat[op]|);
    BlockLayout(layer.name, n, op, FirstImage(layers, kept, n).value, RenderedArgs(layers, kept, n));
  }

  lemma BlockLayout(name: string, n: nat, op: string, first: string, args: seq<string>)
    ensures var r := Block(name, n, op, first, args);
      var firstArg := if |args| > 0 then args[0] else "";
      && StartsWith(r, Comment(" Layer " + name) + "\n")
      && Contains(r, ImageName(n) + " = cle.create_like(" + first + ")\n")
      && Contains(r, CallHead(op, n) + firstArg)
      && EndsWith(r, ")\n")
  {
    var a := Comment(" Layer " + name) + "\n";
    var b := ImageName(n) + " = cle.create_like(" + first + ")\n";
    var joined := Join(", ", args);
    if |args| > 0 {
      JoinStartsWithFirst(", ", args);
      BlockFacts(a, b, CallHead(op, n), joined, args[0]);
    } else {
      BlockFacts(a, b, CallHead(op, n), joined, "");
    }
  }

  /** Where the pieces of a block `a + (b + (head + joined + ")\n"))` can be found. */
  lemma BlockFacts(a: string, b: string, head: string, joined: string, first: string)
    requires StartsWith(joined, first)
    ensures var r := a + (b + (head + joined + ")\n"));
      StartsWith(r, a) && Contains(r, b) && Contains(r, head + first) && EndsWith(r, ")\n")
  {
    var call := head + joined + ")\n";
    var rest := joined[|first|..];
    StartsWithConcat(a, b + call);
    AppendAssoc(a, b, call);
    ContainsConcat(a, b, call);
    EndsWithConcat(head + joined, ")\n");
    EndsWithConcat(a + b, call);
    assert joined == first + rest;
    assert call == (head + first) + (rest + ")\n");
    ContainsConcat(a + b, head + first, rest + ")\n");
    AppendAssoc(a + b, head + first, rest + ")\n");
  }

  /** The display block shows the layer's own image, or its maximum projection along z
      when the data has more than two dimensions. */
  lemma PullShows(layer: Layer, n: nat)
    ensures var shown := if layer.ndim > 2 then "cle.maximum_z_projection(" + ImageName(n) + ")" else ImageName(n);
      StartsWith(Pull(layer, n), Comment(" show result") + "\n" + "cle.imshow(" + shown + ", '")
  {
    var shown := if layer.ndim > 2 then "cle.maximum_z_projection(" + ImageName(n) + ")" else ImageName(n);
    var start := Comment(" show result") + "\n" + "cle.imshow(" + shown + ", '";
    var isLabels := if layer.isLabels then "True" else "False";
    var intensityConfig := if layer.isLabels then "" else ", " + layer.climLo + ", " + layer.climHi;
    var tail := "', " + isLabels + intensityConfig + ")\n\n";
    StartsWithConcat(start, layer.name + tail);
    AppendAssoc(start, layer.name, tail);
  }

  /** A label image is shown as such without a range; an intensity image with its range. */
  lemma PullFlags(layer: Layer, n: nat)
    ensures layer.isLabels ==> EndsWith(Pull(layer, n), "', True)\n\n")
    ensures var range := ", " + layer.climLo + ", " + layer.climHi;
      !layer.isLabels ==> EndsWith(Pull(layer, n), "', False" + range + ")\n\n")
  {
    var shown := if layer.ndim > 2 then "cle.maximum_z_projection(" + ImageName(n) + ")" else ImageName(n);
    var start := Comment(" show result") + "\n" + "cle.imshow(" + shown + ", '";
    var isLabels := if layer.isLabels then "True" else "False";
    var intensityConfig := if layer.isLabels then "" else ", " + layer.climLo + ", " + layer.climHi;
    var tail := "', " + isLabels + intensityConfig + ")\n\n";
    EndsWithConcat(start + layer.name, tail);
    if layer.isLabels {
      assert tail == "', True)\n\n";
    } else {
      assert "', " + isLabels == "', False";
    }
  }
}
