/** The Jython/cpython dialect of the exporter: like the first script generator, but widget
    values are read directly, a dialog without an `operation_name` widget falls back to
    importing its plain function, and the output buffer is only made when an image
    argument exists. */
module ExportJython {
  import opened Wrappers
  import opened Strings
  import opened Layers
  import JythonGenerator

  function Comment(text: string): string
  {
    "#" + text
  }

  /** Whether the dialog resolves to a `cle` operation; otherwise the AttributeError
      fallback path is taken. */
  predicate IsCleOperation(cat: Catalogue, d: Dialog)
  {
    d.operationName.Some? && d.operationName.value in cat
  }

  /** The parameter names of the called function: the operation's, or the plain function's. */
  function ParameterNames(cat: Catalogue, d: Dialog): seq<string>
  {
    if IsCleOperation(cat, d) then cat[d.operationName.value] else d.func.params
  }

  /** The import line of the fallback path; nothing for a `cle` operation. */
  function ImportLine(cat: Catalogue, d: Dialog): string
  {
    if IsCleOperation(cat, d) then "" else "from " + d.func.moduleName + " import " + d.func.qualname + "\n"
  }

  /** The called name: "cle." + the operation (please_select read as copy), or the bare
      name of the plain function. */
  function CalledName(cat: Catalogue, d: Dialog): string
  {
    if IsCleOperation(cat, d) then JythonGenerator.MethodName(d.operationName.value) else d.func.name
  }

  /** The rendered widgets within the parameter count. */
  function Args(cat: Catalogue, layers: seq<Layer>, d: Dialog, n: nat): seq<string>
  {
    JythonGenerator.RenderedArgs(layers, Kept(d.widgets, |ParameterNames(cat, d)|), n)
  }

  function First(cat: Catalogue, layers: seq<Layer>, d: Dialog, n: nat): Option<string>
  {
    JythonGenerator.FirstImage(layers, Kept(d.widgets, |ParameterNames(cat, d)|), n)
  }

  /** The call of the block: the called name applied to the rendered arguments. */
  function Call(cat: Catalogue, layers: seq<Layer>, d: Dialog, n: nat): string
  {
    CalledName(cat, d) + "(" + Join(", ", Args(cat, layers, d, n)) + ")\n"
  }

  /** The line that makes the output buffer, shaped like the first image argument. */
  function CreateLine(n: nat, first: string): string
  {
    ImageName(n) + " = cle.create_like(" + first + ")\n"
  }

  /** The block as `_execute` writes it: the import line is part of the command, so when
      an image argument exists the assignment prefix lands in front of the import. */
  function BlockAsWritten(name: string, n: nat, importLine: string, call: string, first: Option<string>): string
  {
    var body := match first
      case Some(f) => CreateLine(n, f) + (ImageName(n) + " = " + (importLine + call))
      case None => importLine + call;
    "\n" + Comment(" Layer " + name) + "\n" + body
  }

  /** The block with the import on a line of its own ahead of the buffer and the
      assignment, which is what the assignment prefix evidently intends. */
  function Block(name: string, n: nat, importLine: string, call: string, first: Option<string>): string
  {
    var body := match first
      case Some(f) => CreateLine(n, f) + (ImageName(n) + " = " + call)
      case None => call;
    "\n" + Comment(" Layer " + name) + "\n" + (importLine + body)
  }

  /** `_execute` as written. */
  function ExecuteAsWritten(cat: Catalogue, layers: seq<Layer>, layer: Layer, n: nat): string
    requires layer.dialog.Some?
  {
    var d := layer.dialog.value;
    BlockAsWritten(layer.name, n, ImportLine(cat, d), Call(cat, layers, d, n), First(cat, layers, d, n))
  }

  /** `_execute` with the import line moved ahead of the assignment: the correction of
      `ExecuteAsWritten`, which the exporter itself does not use. */
  function ExecuteCorrected(cat: Catalogue, layers: seq<Layer>, layer: Layer, n: nat): string
    requires layer.dialog.Some?
  {
    var d := layer.dialog.value;
    Block(layer.name, n, ImportLine(cat, d), Call(cat, layers, d, n), First(cat, layers, d, n))
  }

  /** The `try`/`except AttributeError` of `_execute`: the parameter names, the called name
      and the text the command starts with (the import line on the fallback path). */
  method Resolve(cat: Catalogue, d: Dialog) returns (parameterNames: seq<string>, methodName: string, command: string)
    ensures parameterNames == ParameterNames(cat, d)
    ensures methodName == CalledName(cat, d)
    ensures command == ImportLine(cat, d)
  {
    command := "";
    if d.operationName.Some? && d.operationName.value in cat {
      parameterNames := cat[d.operationName.value];
      methodName := JythonGenerator.MethodName(d.operationName.value);
    } else {
      parameterNames := d.func.params;
      methodName := d.func.name;
      command := command + "from " + d.func.moduleName + " import " + d.func.qualname + "\n";
    }
  }

  /** `_execute`: walks the widgets within the parameter count, comma-separated,
      remembering the first image argument; on the fallback path the import line starts
      the command, so it ends up behind the assignment prefix. */
  method Execute(cat: Catalogue, layers: seq<Layer>, layer: Layer, n: nat) returns (r: string)
    requires layer.dialog.Some?
    ensures r == ExecuteAsWritten(cat, layers, layer, n)
  {
    var d := layer.dialog.value;
    var parameterNames, methodName, command := Resolve(cat, d);
    ghost var importLine := command;
    var firstImage;
    command, firstImage := JythonGenerator.RenderCall(layers, d.widgets, |parameterNames|, n, command + methodName + "(");
    command := command + ")\n";
    CommandAsWritten(importLine, methodName, Join(", ", Args(cat, layers, d, n)));
    if firstImage.Some? {
      command := CreateLine(n, firstImage.value) + (ImageName(n) + " = " + command);
    }
    command := "\n" + Comment(" Layer " + layer.name) + "\n" + command;
    return command;
  }

  lemma CommandAsWritten(importLine: string, methodName: string, args: string)
    ensures importLine + methodName + "(" + args + ")\n" == importLine + (methodName + "(" + args + ")\n")
  {
    AppendAssoc(importLine, methodName + "(", args);
    AppendAssoc(importLine, methodName + "(" + args, ")\n");
  }

  /** The display block: the layer's image as it is, as labels, or with its range. */
  function Pull(layer: Layer, n: nat): string
  {
    var isLabels := if layer.isLabels then "True" else "False";
    var intensityConfig := if layer.isLabels then "" else ", " + layer.climLo + ", " + layer.climHi;
    var start := Comment(" show result") + "\n" + "cle.imshow(" + ImageName(n) + ", '";
    start + layer.name + ("', " + isLabels + intensityConfig + ")\n")
  }

  function FileEnding(): string
  {
    ".py"
  }

  /** Without an import line the two blocks agree. */
  lemma BlocksAgreeWithoutImport(name: string, n: nat, call: string, first: Option<string>)
    ensures BlockAsWritten(name, n, "", call, first) == Block(name, n, "", call, first)
  {
    assert "" + call == call;
    if first.Some? {
      var body := CreateLine(n, first.value) + (ImageName(n) + " = " + call);
      assert "" + body == body;
    }
  }

  /** On the `cle` path there is no import line and the fix changes nothing. */
  lemma CorrectionKeepsClePath(cat: Catalogue, layers: seq<Layer>, layer: Layer, n: nat)
    requires layer.dialog.Some? && IsCleOperation(cat, layer.dialog.value)
    ensures ExecuteCorrected(cat, layers, layer, n) == ExecuteAsWritten(cat, layers, layer, n)
  {
    var d := layer.dialog.value;
    BlocksAgreeWithoutImport(layer.name, n, Call(cat, layers, d, n), First(cat, layers, d, n));
  }

  lemma AssignedImport(name: string, n: nat, rest: string, call: string, first: string)
    ensures Contains(BlockAsWritten(name, n, "from " + rest, call, Some(first)), ImageName(n) + " = from ")
  {
    var start := "\n" + Comment(" Layer " + name) + "\n";
    var create := CreateLine(n, first);
    var assign := ImageName(n) + " = ";
    AppendAssoc(start, create, assign + ("from " + rest + call));
    AppendAssoc("from ", rest, call);
    AppendAssoc(assign, "from ", rest + call);
    AppendAssoc(start + create, assign + "from ", rest + call);
    ContainsConcat(start + create, assign + "from ", rest + call);
    AppendAssoc(ImageName(n), " = ", "from ");
    assert " = " + "from " == " = from ";
  }

  /** As written, a plain function with an image argument yields a line that assigns an
      import statement, `image{n} = from ...`, which is not valid Python. */
  lemma AsWrittenAssignsImport(cat: Catalogue, layers: seq<Layer>, layer: Layer, n: nat)
    requires layer.dialog.Some? && !IsCleOperation(cat, layer.dialog.value)
    requires First(cat, layers, layer.dialog.value, n).Some?
    ensures Contains(ExecuteAsWritten(cat, layers, layer, n), ImageName(n) + " = from ")
  {
    var d := layer.dialog.value;
    var rest := d.func.moduleName + " import " + d.func.qualname + "\n";
    ImportLineSplit(d.func.moduleName, d.func.qualname);
    assert ImportLine(cat, d) == "from " + rest;
    AssignedImport(layer.name, n, rest, Call(cat, layers, d, n), First(cat, layers, d, n).value);
  }

  lemma ImportLineSplit(m: string, q: string)
    ensures "from " + m + " import " + q + "\n" == "from " + (m + " import " + q + "\n")
  {
    AppendAssoc("from ", m, " import ");
    AppendAssoc("from ", m + " import ", q);
    AppendAssoc("from ", m + " import " + q, "\n");
  }

  /** A concrete case: a plain function whose only parameter holds the first layer. */
  lemma AsWrittenExample()
    ensures
      var f := PlainFunction("my_module", "my_filter", "my_filter", ["image"]);
      var layer0 := Layer(0, "blobs", false, true, 2, None, None, "0", "255", None, None);
      var layer1 := Layer(1, "filtered", false, true, 2, None,
        Some(Dialog(None, f, [Widget("image", WLayer(0))])), "0", "255", None, None);
      Contains(ExecuteAsWritten(map[], [layer0, layer1], layer1, 1), ImageName(1) + " = from ")
  {
    var f := PlainFunction("my_module", "my_filter", "my_filter", ["image"]);
    var layer0 := Layer(0, "blobs", false, true, 2, None, None, "0", "255", None, None);
    var layer1 := Layer(1, "filtered", false, true, 2, None,
      Some(Dialog(None, f, [Widget("image", WLayer(0))])), "0", "255", None, None);
    var d := layer1.dialog.value;
    var kept := Kept(d.widgets, |ParameterNames(map[], d)|);
    assert kept == [Widget("image", WLayer(0))];
    assert kept[0].value.WLayer?;
    assert First(map[], [layer0, layer1], d, 1).Some?;
    AsWrittenAssignsImport(map[], [layer0, layer1], layer1, 1);
  }

  lemma ImportFirst(name: string, n: nat, importLine: string, call: string, first: Option<string>)
    ensures StartsWith(Block(name, n, importLine, call, first), "\n" + Comment(" Layer " + name) + "\n" + importLine)
    ensures first.Some? ==>
      StartsWith(Block(name, n, importLine, call, first), "\n" + Comment(" Layer " + name) + "\n" + importLine + CreateLine(n, first.value))
    ensures first.Some? ==> EndsWith(Block(name, n, importLine, call, first), ImageName(n) + " = " + call)
  {
    var start := "\n" + Comment(" Layer " + name) + "\n";
    var body := match first
      case Some(f) => CreateLine(n, f) + (ImageName(n) + " = " + call)
      case None => call;
    AppendAssoc(start, importLine, body);
    StartsWithConcat(start + importLine, body);
    if first.Some? {
      var create := CreateLine(n, first.value);
      var tail := ImageName(n) + " = " + call;
      AppendAssoc(start + importLine, create, tail);
      StartsWithConcat(start + importLine + create, tail);
      EndsWithConcat(start + importLine + create, tail);
    }
  }

  /** With the correction, a fallback block puts the import line first, right after the
      layer comment, and the call, assigned when an image argument exists, after it. */
  lemma CorrectedImportFirst(cat: Catalogue, layers: seq<Layer>, layer: Layer, n: nat)
    requires layer.dialog.Some? && !IsCleOperation(cat, layer.dialog.value)
    ensures var d := layer.dialog.value;
      StartsWith(ExecuteCorrected(cat, layers, layer, n),
        "\n" + Comment(" Layer " + layer.name) + "\n" + ("from " + d.func.moduleName + " import " + d.func.qualname + "\n"))
    ensures var d := layer.dialog.value;
      First(cat, layers, d, n).Some? ==>
        && StartsWith(ExecuteCorrected(cat, layers, layer, n),
             "\n" + Comment(" Layer " + layer.name) + "\n" + ImportLine(cat, d) + CreateLine(n, First(cat, layers, d, n).value))
        && EndsWith(ExecuteCorrected(cat, layers, layer, n), ImageName(n) + " = " + Call(cat, layers, d, n))
  {
    var d := layer.dialog.value;
    ImportFirst(layer.name, n, ImportLine(cat, d), Call(cat, layers, d, n), First(cat, layers, d, n));
  }

  /** Without an image argument only the bare call remains, with no buffer line and no
      assignment. */
  lemma NoImageNoBuffer(cat: Catalogue, layers: seq<Layer>, layer: Layer, n: nat)
    requires layer.dialog.Some? && First(cat, layers, layer.dialog.value, n).None?
    ensures var d := layer.dialog.value;
      ExecuteAsWritten(cat, layers, layer, n)
      == "\n" + Comment(" Layer " + layer.name) + "\n" + (ImportLine(cat, d) + Call(cat, layers, d, n))
  {
  }

  /** The display block shows the layer's own image, unprojected, and names its kind. */
  lemma PullShape(layer: Layer, n: nat)
    ensures StartsWith(Pull(layer, n), Comment(" show result") + "\n" + "cle.imshow(" + ImageName(n) + ", '")
    ensures layer.isLabels ==> EndsWith(Pull(layer, n), "', True)\n")
    ensures var range := ", " + layer.climLo + ", " + layer.climHi;
      !layer.isLabels ==> EndsWith(Pull(layer, n), "', False" + range + ")\n")
  {
    var start := Comment(" show result") + "\n" + "cle.imshow(" + ImageName(n) + ", '";
    var isLabels := if layer.isLabels then "True" else "False";
    var intensityConfig := if layer.isLabels then "" else ", " + layer.climLo + ", " + layer.climHi;
    var tail := "', " + isLabels + intensityConfig + ")\n";
    StartsWithConcat(start, layer.name + tail);
    AppendAssoc(start, layer.name, tail);
    EndsWithConcat(start + layer.name, tail);
    if layer.isLabels {
      LabelsTail();
    } else {
      ImageTail(intensityConfig);
    }
  }

  lemma LabelsTail()
    ensures "', " + "True" + "" + ")\n" == "', True)\n"
  {
  }

  lemma ImageTail(range: string)
    ensures "', " + "False" + range + ")\n" == "', False" + range + ")\n"
  {
    assert "', " + "False" == "', False";
  }
}
