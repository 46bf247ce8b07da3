/** The cpython script dialect of the first script generator: `cle` calls with keyword
    arguments, images pushed from scikit-image and shown with `imshow`. */
module PythonGenerator {
  import opened Wrappers
  import opened Strings
  import opened Layers
  import JythonGenerator

  function Comment(text: string): string
  {
    "#" + text
  }

  function Header(version: string): string
  {
    "# To make this " + "script run in " + "cpython, " + "install " + "pyclesperanto_prototype:\n"
    + "# pip install " + "pyclesperanto_prototype\n"
    + "# Read more: \n"
    + "# " + "https://clesperanto.net\n"
    + "# \n"
    + "# Generator (P) " + "version: " + version + "\n"
    + "# \n"
    + "import " + "pyclesperanto_prototype " + "as cle\n"
    + "from skimage.io " + "import imread, " + "imshow\n\n"
  }

  /** The file a pushed layer is read from: the layer's `filename` attribute (not its
      metadata) with every backslash turned into '/', or the layer name when the layer
      object has no such attribute. */
  function SourceName(layer: Layer): (f: string)
    ensures layer.attrFilename.None? ==> f == layer.name
    ensures layer.attrFilename.Some? ==> '\\' !in f && |f| == |layer.attrFilename.value|
    ensures layer.attrFilename.Some? && '\\' !in layer.attrFilename.value ==> f == layer.attrFilename.value
  {
    match layer.attrFilename
    case Some(name) =>
      ReplaceCharFacts(name, '\\', '/');
      ReplaceAll(name, "\\", "/")
    case None => layer.name
  }

  /** Read the file with scikit-image, then push it to the device as `image{n}`. */
  function Push(layer: Layer, n: nat): string
  {
    "image = imread('" + SourceName(layer) + "')\n"
    + (ImageName(n) + " = cle.push_zyx(image)\n")
  }

  /** The push block reads into `image` and binds the device copy to the layer's own name;
      the metadata filename plays no part. */
  lemma PushShape(layer: Layer, n: nat)
    ensures StartsWith(Push(layer, n), "image = imread('" + SourceName(layer) + "')\n")
    ensures EndsWith(Push(layer, n), ImageName(n) + " = cle.push_zyx(image)\n")
    ensures Push(layer, n) == Push(layer.(filename := None), n)
  {
    StartsWithConcat("image = imread('" + SourceName(layer) + "')\n", ImageName(n) + " = cle.push_zyx(image)\n");
    EndsWithConcat("image = imread('" + SourceName(layer) + "')\n", ImageName(n) + " = cle.push_zyx(image)\n");
  }

  /** One keyword argument, or None when the widget is skipped: a value that is the
      operation itself, or the string of the `operation_name` widget. */
  function Piece(layers: seq<Layer>, w: Widget, parameterName: string, op: string): (r: Option<string>)
    ensures r.None? <==> (w.value.WFunction? && w.value.name == op) || (w.value.WText? && w.name == "operation_name")
    ensures r.Some? ==> StartsWith(r.value, parameterName + "=")
  {
    match w.value
    case WFunction(name, t) =>
      if name == op then None
      else StartsWithConcat(parameterName + "=", t); Some(parameterName + "=" + t)
    case WLayer(id) =>
      StartsWithConcat(parameterName + "=", "image" + IndexText(IndexOf(layers, id)));
      AppendAssoc(parameterName, "=", "image" + IndexText(IndexOf(layers, id)));
      assert "=" + ("image" + IndexText(IndexOf(layers, id))) == "=image" + IndexText(IndexOf(layers, id));
      Some(parameterName + "=image" + IndexText(IndexOf(layers, id)))
    case WText(s) =>
      if w.name != "operation_name" then
        StartsWithConcat(parameterName + "=", "'" + s + "'");
        AppendAssoc(parameterName, "=", "'" + s + "'");
        assert "=" + ("'" + s + "'") == "='" + s + "'";
        Some(parameterName + "='" + s + "'")
      else None
    case WScalar(t) =>
      StartsWithConcat(parameterName + "=", t);
      Some(parameterName + "=" + t)
  }

  /** The pieces of the first widgets, each named by the parameter at its position. */
  function Pieces(layers: seq<Layer>, ws: seq<Widget>, parameterNames: seq<string>, op: string): (r: seq<Option<string>>)
    requires |ws| <= |parameterNames|
    ensures |r| == |ws|
    ensures forall k :: 0 <= k < |ws| ==> r[k] == Piece(layers, ws[k], parameterNames[k], op)
  {
    seq(|ws|, k requires 0 <= k < |ws| => Piece(layers, ws[k], parameterNames[k], op))
  }

  /** The arguments that are written, in order. */
  function Present(ps: seq<Option<string>>): (r: seq<string>)
    ensures |r| <= |ps|
  {
    if |ps| == 0 then []
    else Present(ps[..|ps| - 1]) + (if ps[|ps| - 1].Some? then [ps[|ps| - 1].value] else [])
  }

  lemma {:induction false} PresentFirst(ps: seq<Option<string>>)
    requires |ps| > 0 && ps[0].Some?
    ensures |Present(ps)| > 0 && Present(ps)[0] == ps[0].value
    decreases |ps|
  {
    if |ps| > 1 {
      var init := ps[..|ps| - 1];
      assert init[0] == ps[0];
      PresentFirst(init);
    }
  }

  /** The argument list as `_execute` writes it. The comma flag is set for every rendered
      widget, skipped or not, so the arguments are joined by ", " and, when the very first
      widget was skipped, preceded by one more ", ". */
  function ArgsText(ps: seq<Option<string>>): string
  {
    var present := Present(ps);
    if |ps| > 0 && ps[0].None? && |present| > 0 then ", " + Join(", ", present)
    else Join(", ", present)
  }

  lemma ArgsTextSnoc(ps: seq<Option<string>>, p: Option<string>)
    ensures ArgsText(ps + [p]) ==
      ArgsText(ps) + (if p.Some? then (if |ps| == 0 then "" else ", ") + p.value else "")
  {
    var present := Present(ps);
    var qs := ps + [p];
    assert qs[..|ps|] == ps;
    assert Present(qs) == present + (if p.Some? then [p.value] else []);
    if |ps| > 0 {
      assert qs[0] == ps[0];
      if ps[0].Some? {
        PresentFirst(ps);
      }
    }
    if p.Some? {
      var v := p.value;
      JoinSnoc(", ", present, v);
      if |ps| == 0 {
        assert ArgsText(qs) == v;
      } else if |present| == 0 {
        assert ps[0].None?;
        assert ArgsText(ps) == "";
        assert ArgsText(qs) == ", " + v;
      } else {
        var joined := Join(", ", present);
        assert Join(", ", present + [v]) == joined + ", " + v;
        AppendAssoc(joined, ", ", v);
        if ps[0].None? {
          AppendAssoc(", ", joined, ", " + v);
          assert ArgsText(qs) == ", " + (joined + ", " + v);
        } else {
          assert ArgsText(qs) == joined + ", " + v;
        }
      }
    } else {
      assert Present(qs) == present;
    }
  }

  /** Arguments start with the first widget's argument when it is written; after a skipped
      first widget they start with a stray ", ". */
  lemma ArgsTextStart(ps: seq<Option<string>>)
    requires |ps| > 0
    ensures ps[0].Some? ==> StartsWith(ArgsText(ps), ps[0].value)
    ensures ps[0].None? && |Present(ps)| > 0 ==> StartsWith(ArgsText(ps), ", ")
    ensures |Present(ps)| == 0 ==> ArgsText(ps) == ""
  {
    if ps[0].Some? {
      PresentFirst(ps);
      JoinStartsWithFirst(", ", Present(ps));
    } else if |Present(ps)| > 0 {
      StartsWithConcat(", ", Join(", ", Present(ps)));
    }
  }

  /** The call block of a layer made by an operation dialog, read from the layer's `dialog`
      attribute; None where `_execute` raises: the layer object has no such attribute
      (AttributeError), or the operation is one the catalogue does not know. */
  function ExecuteSpec(cat: Catalogue, layers: seq<Layer>, layer: Layer, n: nat): Option<string>
  {
    if layer.attrDialog.None? then None
    else
    var d := layer.attrDialog.value;
    if d.operationName.None? || d.operationName.value !in cat then None
    else
      var op := d.operationName.value;
      var kept := Kept(d.widgets, |cat[op]|);
      Some(Block(layer.name, n, op, ArgsText(Pieces(layers, kept, cat[op], op))))
  }

  /** The text of a call block: the layer comment, then the call assigned to `image{n}`. */
  function Block(name: string, n: nat, op: string, args: string): string
  {
    Comment(" Layer " + name) + "\n" + (ImageName(n) + " = " + (JythonGenerator.MethodName(op) + "(" + args + ")\n"))
  }

  /** The loop of `_execute` over the widgets: those within the parameter count are
      written after `head` as keyword arguments, each after ", " except the first. */
  method KeywordCall(layers: seq<Layer>, widgets: seq<Widget>, parameterNames: seq<string>, op: string, head: string)
    returns (command: string)
    ensures command == head + ArgsText(Pieces(layers, Kept(widgets, |parameterNames|), parameterNames, op))
  {
    command := head;
    var putComma := false;
    ghost var kept := Kept(widgets, |parameterNames|);
    ghost var pieces := Pieces(layers, kept, parameterNames, op);
    ghost var m: nat := 0;
    var i: nat := 0;
    while i < |widgets|
      invariant i <= |widgets|
      invariant m == if i < |kept| then i else |kept|
      invariant putComma == (m > 0)
      invariant command == head + ArgsText(pieces[..m])
    {
      if i < |parameterNames| {
        var comma := "";
        if putComma {
          comma := ", ";
        }
        putComma := true;
        var w := widgets[i];
        var piece := RenderKeyword(layers, w, parameterNames[i], op);
        KeywordStep(layers, kept, parameterNames, op, i, head, comma);
        if piece.Some? {
          command := command + comma + piece.value;
        }
        m := m + 1;
      }
      i := i + 1;
    }
    assert pieces[..|kept|] == pieces;
  }

  /** One widget appended to the keyword arguments: its argument after the separator when
      it is written, nothing otherwise. */
  lemma KeywordStep(layers: seq<Layer>, kept: seq<Widget>, parameterNames: seq<string>, op: string, i: nat,
                    head: string, comma: string)
    requires |kept| <= |parameterNames| && i < |kept|
    requires comma == if i > 0 then ", " else ""
    ensures var pieces := Pieces(layers, kept, parameterNames, op);
      var p := Piece(layers, kept[i], parameterNames[i], op);
      head + ArgsText(pieces[..i + 1]) == if p.Some? then head + ArgsText(pieces[..i]) + comma + p.value
        else head + ArgsText(pieces[..i])
  {
    var pieces := Pieces(layers, kept, parameterNames, op);
    var p := Piece(layers, kept[i], parameterNames[i], op);
    TakeSnoc(pieces, i);
    ArgsTextSnoc(pieces[..i], p);
    if p.Some? {
      AppendAssoc(head, ArgsText(pieces[..i]), comma + p.value);
      AppendAssoc(head + ArgsText(pieces[..i]), comma, p.value);
    }
  }

  /** `_execute`: the widgets within the parameter count become keyword arguments. */
  method Execute(cat: Catalogue, layers: seq<Layer>, layer: Layer, n: nat) returns (r: Option<string>)
    ensures r == ExecuteSpec(cat, layers, layer, n)
  {
    if layer.attrDialog.None? {
      return None;
    }
    var d := layer.attrDialog.value;
    if d.operationName.None? || d.operationName.value !in cat {
      return None;
    }
    var op := d.operationName.value;
    var parameterNames := cat[op];
    var command := KeywordCall(layers, d.widgets, parameterNames, op, JythonGenerator.MethodName(op) + "(");
    command := command + ")\n";
    command := ImageName(n) + " = " + command;
    command := Comment(" Layer " + layer.name) + "\n" + command;
    return Some(command);
  }

  /** One widget as `_execute` writes it, or None when it is skipped. */
  method RenderKeyword(layers: seq<Layer>, w: Widget, parameterName: string, op: string) returns (r: Option<string>)
    ensures r == Piece(layers, w, parameterName, op)
  {
    if w.value.WFunction? && w.value.name == op {
      r := None;
    } else if w.value.WLayer? {
      var index := GetIndexOfLayer(layers, w.value.id);
      FirstIndexUnique(layers, w.value.id, index, IndexOf(layers, w.value.id));
      r := Some(parameterName + "=image" + IndexText(index));
    } else if w.value.WText? {
      if w.name != "operation_name" {
        r := Some(parameterName + "='" + w.value.s + "'");
      } else {
        r := None;
      }
    } else if w.value.WScalar? {
      r := Some(parameterName + "=" + w.value.text);
    } else {
      r := Some(parameterName + "=" + w.value.text);
    }
  }

  /** The display block pulls the layer's image back, the same for every kind of layer. */
  function Pull(layer: Layer, n: nat): string
  {
    Comment(" show result") + "\n" + "imshow(cle.pull_zyx(" + ImageName(n) + "))\n\n"
  }

  /** The display block depends on the layer's position only. */
  lemma PullIgnoresLayer(a: Layer, b: Layer, n: nat)
    ensures Pull(a, n) == Pull(b, n)
    ensures EndsWith(Pull(a, n), "imshow(cle.pull_zyx(" + ImageName(n) + "))\n\n")
  {
    var start := Comment(" show result") + "\n";
    var tail := "imshow(cle.pull_zyx(" + ImageName(n) + "))\n\n";
    assert Pull(a, n) == start + tail;
    EndsWithConcat(start, tail);
  }

  function FileEnding(): string
  {
    ".py"
  }

  /** The block assigns the keyword call to the layer's own image, after the layer comment;
      a widget that is skipped writes nothing. */
  lemma ExecuteLayout(cat: Catalogue, layers: seq<Layer>, layer: Layer, n: nat)
    requires ExecuteSpec(cat, layers, layer, n).Some?
    ensures layer.attrDialog.Some?
    ensures var r := ExecuteSpec(cat, layers, layer, n).value;
      var op := layer.attrDialog.value.operationName.value;
      && StartsWith(r, Comment(" Layer " + layer.name) + "\n")
      && Contains(r, ImageName(n) + " = " + JythonGenerator.MethodName(op) + "(")
      && EndsWith(r, ")\n")
  {
    var d := layer.attrDialog.value;
    var op := d.operationName.value;
    var kept := Kept(d.widgets, |cat[op]|);
    BlockLayout(layer.name, n, op, ArgsText(Pieces(layers, kept, cat[op], op)));
  }

  lemma BlockLayout(name: string, n: nat, op: string, args: string)
    ensures var r := Block(name, n, op, args);
      && StartsWith(r, Comment(" Layer " + name) + "\n")
      && Contains(r, ImageName(n) + " = " + JythonGenerator.MethodName(op) + "(")
      && EndsWith(r, ")\n")
  {
    var b := ImageName(n) + " = ";
    var m := JythonGenerator.MethodName(op);
    AppendAssoc(b, m, "(");
    BlockShape(Comment(" Layer " + name) + "\n", b, m + "(", args);
  }

  /** The layout of a block in plain strings: a header line, then the call `b + c`,
      then the arguments and the closing line. */
  lemma BlockShape(a: string, b: string, c: string, args: string)
    ensures var r := a + (b + (c + args + ")\n"));
      StartsWith(r, a) && Contains(r, b + c) && EndsWith(r, ")\n")
  {
    var r := a + (b + (c + args + ")\n"));
    StartsWithConcat(a, b + (c + args + ")\n"));
    assert r == a + (b + c) + (args + ")\n");
    ContainsConcat(a, b + c, args + ")\n");
    assert r == a + (b + (c + args)) + ")\n";
    EndsWithConcat(a + (b + (c + args)), ")\n");
  }
}
