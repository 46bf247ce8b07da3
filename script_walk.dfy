/** The generator of the earlier assistant package: starting from every layer that was not
    made by a dialog, it writes the layer's code and then walks, recursively and in list
    order, to every layer whose dialog takes it as first or second input. */
module ScriptWalk {
  import opened Wrappers
  import opened Strings
  import opened Layers
  import JythonGenerator
  import PythonGenerator
  import ScriptGeneratorBase

  /** A layer as this generator sees it: the layer, whose `attrFilename` and `attrDialog`
      are the attributes this generator reads, and whether it carries a `dialog` attribute
      at all (layers opened from disk do not; a dialog attribute may still hold None). A
      layer without the attribute is the start of a walk. */
  datatype WalkLayer = WalkLayer(layer: Layer, hasDialog: bool)

  /** The comment of the base generator is the text itself. */
  function Comment(text: string): string
  {
    text
  }

  function Header(): string
  {
    "import " + "pyclesperanto_prototype " + "as cle\n"
  }

  function Bases(ws: seq<WalkLayer>): (r: seq<Layer>)
    ensures |r| == |ws|
    ensures forall k :: 0 <= k < |ws| ==> r[k] == ws[k].layer
  {
    seq(|ws|, k requires 0 <= k < |ws| => ws[k].layer)
  }

  /** A push is written when the layer has a file name. */
  predicate RecordsPush(w: WalkLayer)
  {
    w.layer.attrFilename.Some?
  }

  /** A call is written when the layer has a dialog attribute that is not None. */
  predicate RecordsExec(w: WalkLayer)
  {
    w.hasDialog && w.layer.attrDialog.Some?
  }

  /** The value of the first widget with the given name, None when there is none. */
  function InputWidget(ws: seq<Widget>, name: string): Option<WidgetValue>
  {
    if |ws| == 0 then None
    else if ws[0].name == name then Some(ws[0].value)
    else InputWidget(ws[1..], name)
  }

  /** `other` is walked to from `layer`: its dialog's first input is `layer`, or its first
      input exists and its second input is `layer`. A missing first input widget raises
      before the second is looked at, and the error is caught. */
  predicate Follows(other: WalkLayer, layer: WalkLayer)
  {
    other.hasDialog && other.layer.attrDialog.Some?
    && var ws := other.layer.attrDialog.value.widgets;
    var in1 := InputWidget(ws, "input1");
    var in2 := InputWidget(ws, "input2");
    in1.Some? && (in1.value == WLayer(layer.layer.id) || (in2.Some? && in2.value == WLayer(layer.layer.id)))
  }

  function LayerHead(name: string): string
  {
    "\n" + Comment(" Layer " + name) + "\n"
  }

  /** `_push`: the file read with skimage and pushed to the device as `image{n}`. */
  function Push(filename: string, n: nat): string
  {
    "from skimage.io " + "import imread\n" + ("image = imread('" + filename + "')\n" + (ImageName(n) + " = cle.push_zyx(image)\n"))
  }

  /** One keyword argument, or None when the widget's value is the operation itself: a
      layer by its index, a string quoted, anything else as written. */
  function Piece(layers: seq<Layer>, w: Widget, parameterName: string, op: string): (r: Option<string>)
    ensures r.None? <==> w.value.WFunction? && w.value.name == op
    ensures r.Some? ==> StartsWith(r.value, parameterName + "=")
  {
    match w.value
    case WFunction(name, t) =>
      if name == op then None
      else StartsWithConcat(parameterName + "=", t); Some(parameterName + "=" + t)
    case WLayer(id) =>
      StartsWithConcat(parameterName + "=", "image" + IndexText(IndexOf(layers, id)));
      AppendAssoc(parameterName, "=", "image" + IndexText(IndexOf(layers, id)));
      assert "=" + ("image" + IndexText(IndexOf(layers, id))) == "=image" + IndexText(IndexOf(layers, id));
      Some(parameterName + "=image" + IndexText(IndexOf(layers, id)))
    case WText(s) =>
      StartsWithConcat(parameterName + "=", "'" + s + "'");
      AppendAssoc(parameterName, "=", "'" + s + "'");
      assert "=" + ("'" + s + "'") == "='" + s + "'";
      Some(parameterName + "='" + s + "'")
    case WScalar(t) =>
      StartsWithConcat(parameterName + "=", t);
      Some(parameterName + "=" + t)
  }

  function Pieces(layers: seq<Layer>, ws: seq<Widget>, parameterNames: seq<string>, op: string): (r: seq<Option<string>>)
    requires |ws| <= |parameterNames|
    ensures |r| == |ws|
    ensures forall k :: 0 <= k < |ws| ==> r[k] == Piece(layers, ws[k], parameterNames[k], op)
  {
    seq(|ws|, k requires 0 <= k < |ws| => Piece(layers, ws[k], parameterNames[k], op))
  }

  /** The call of a dialog's operation assigned to `image{n}`; None when the operation is
      not in the catalogue (the lookup raises and nothing catches it). */
  function ExecuteSpec(cat: Catalogue, ws: seq<WalkLayer>, d: Dialog, n: nat): (r: Option<string>)
    ensures r.None? <==> d.operationName.None? || d.operationName.value !in cat
    ensures r.Some? ==>
      StartsWith(r.value, ImageName(n) + " = " + JythonGenerator.MethodName(d.operationName.value) + "(")
      && EndsWith(r.value, ")\n")
  {
    if d.operationName.None? || d.operationName.value !in cat then None
    else
      var op := d.operationName.value;
      var kept := Kept(d.widgets, |cat[op]|);
      var call := JythonGenerator.MethodName(op) + "(" + PythonGenerator.ArgsText(Pieces(Bases(ws), kept, cat[op], op)) + ")\n";
      CallShape(ImageName(n) + " = ", JythonGenerator.MethodName(op) + "(", PythonGenerator.ArgsText(Pieces(Bases(ws), kept, cat[op], op)));
      Some(ImageName(n) + " = " + call)
  }

  lemma CallShape(lhs: string, head: string, args: string)
    ensures StartsWith(lhs + (head + args + ")\n"), lhs + head)
    ensures EndsWith(lhs + (head + args + ")\n"), ")\n")
  {
    AppendAssoc(lhs, head, args + ")\n");
    StartsWithConcat(lhs + head, args + ")\n");
    EndsWithConcat(lhs + head + args, ")\n");
  }

  /** `_execute`: the dialog's widgets within the parameter count become keyword arguments. */
  method Execute(cat: Catalogue, ws: seq<WalkLayer>, d: Dialog, n: nat) returns (r: Option<string>)
    ensures r == ExecuteSpec(cat, ws, d, n)
  {
    if d.operationName.None? || d.operationName.value !in cat {
      return None;
    }
    var op := d.operationName.value;
    var parameterNames := cat[op];
    var layers := Bases(ws);
    var head := JythonGenerator.MethodName(op) + "(";
    var command := head;
    var putComma := false;
    ghost var kept := Kept(d.widgets, |parameterNames|);
    ghost var pieces := Pieces(layers, kept, parameterNames, op);
    ghost var m := 0;
    var i := 0;
    while i < |d.widgets|
      invariant 0 <= i <= |d.widgets|
      invariant m == if i < |kept| then i else |kept|
      invariant putComma == (m > 0)
      invariant command == head + PythonGenerator.ArgsText(pieces[..m])
    {
      if i < |parameterNames| {
        var comma := "";
        if putComma {
          comma := ", ";
        }
        putComma := true;
        var w := d.widgets[i];
        assert m == i && w == kept[i];
        var piece := Piece(layers, w, parameterNames[i], op);
        assert piece == pieces[i];
        TakeSnoc(pieces, i);
        PythonGenerator.ArgsTextSnoc(pieces[..i], piece);
        if piece.Some? {
          AppendAssoc(head, PythonGenerator.ArgsText(pieces[..i]), comma + piece.value);
          AppendAssoc(command, comma, piece.value);
          command := command + comma + piece.value;
        }
        m := m + 1;
      }
      i := i + 1;
    }
    assert pieces[..|kept|] == pieces;
    command := command + ")\n";
    command := ImageName(n) + " = " + command;
    return Some(command);
  }

  /** The code of layer k itself: its comment, its push when it has a file name and its
      call when it has a dialog; None when the call fails. */
  function Own(cat: Catalogue, ws: seq<WalkLayer>, k: nat): Option<string>
    requires k < |ws|
  {
    var w := ws[k];
    var pushed := LayerHead(w.layer.name) + (if RecordsPush(w) then Push(w.layer.attrFilename.value, k) else "");
    if !RecordsExec(w) then Some(pushed)
    else
      var e := ExecuteSpec(cat, ws, w.layer.attrDialog.value, k);
      if e.None? then None else Some(pushed + e.value)
  }

  /** A layer's own code starts with its comment; the push is there exactly when the layer
      has a file name, the call exactly when it has a dialog, and only the call can fail. */
  lemma OwnShape(cat: Catalogue, ws: seq<WalkLayer>, k: nat)
    requires k < |ws|
    ensures var w := ws[k];
      (Own(cat, ws, k).None? <==> RecordsExec(w) && ExecuteSpec(cat, ws, w.layer.attrDialog.value, k).None?)
      && (Own(cat, ws, k).Some? ==> StartsWith(Own(cat, ws, k).value, LayerHead(w.layer.name)))
      && (Own(cat, ws, k).Some? && RecordsPush(w) ==>
            StartsWith(Own(cat, ws, k).value, LayerHead(w.layer.name) + Push(w.layer.attrFilename.value, k)))
      && (!RecordsPush(w) && !RecordsExec(w) ==> Own(cat, ws, k) == Some(LayerHead(w.layer.name)))
      && (Own(cat, ws, k).Some? && RecordsExec(w) ==>
            EndsWith(Own(cat, ws, k).value, ExecuteSpec(cat, ws, w.layer.attrDialog.value, k).value))
  {
    var w := ws[k];
    var head := LayerHead(w.layer.name);
    var pushed := head + (if RecordsPush(w) then Push(w.layer.attrFilename.value, k) else "");
    StartsWithConcat(head, if RecordsPush(w) then Push(w.layer.attrFilename.value, k) else "");
    if RecordsExec(w) && ExecuteSpec(cat, ws, w.layer.attrDialog.value, k).Some? {
      var e := ExecuteSpec(cat, ws, w.layer.attrDialog.value, k).value;
      StartsWithConcat(pushed, e);
      StartsWithTrans(pushed + e, pushed, head);
      EndsWithConcat(pushed, e);
    } else if !RecordsExec(w) {
      assert pushed[..|pushed|] == pushed;
    }
    if !RecordsPush(w) {
      assert pushed == head;
    }
  }

  /** The own code of every layer. */
  function Owns(cat: Catalogue, ws: seq<WalkLayer>): (r: seq<Option<string>>)
    ensures |r| == |ws|
  {
    OwnsUpTo(cat, ws, |ws|)
  }

  function OwnsUpTo(cat: Catalogue, ws: seq<WalkLayer>, n: nat): (r: seq<Option<string>>)
    requires n <= |ws|
    ensures |r| == n
  {
    if n == 0 then [] else OwnsUpTo(cat, ws, n - 1) + [Own(cat, ws, n - 1)]
  }

  lemma {:induction false} OwnsUpToAt(cat: Catalogue, ws: seq<WalkLayer>, n: nat, k: nat)
    requires k < n <= |ws|
    ensures OwnsUpTo(cat, ws, n)[k] == Own(cat, ws, k)
  {
    if k < n - 1 {
      OwnsUpToAt(cat, ws, n - 1, k);
    }
  }

  lemma OwnsAt(cat: Catalogue, ws: seq<WalkLayer>, k: nat)
    requires k < |ws|
    ensures Owns(cat, ws)[k] == Own(cat, ws, k)
  {
    OwnsUpToAt(cat, ws, |ws|, k);
  }

  /** Who follows whom: `Edges(ws)(i, k)` holds when layer i follows layer k. */
  function Edges(ws: seq<WalkLayer>): (nat, nat) -> bool
  {
    (i: nat, k: nat) => i < |ws| && k < |ws| && Follows(ws[i], ws[k])
  }

  /** Which layers start a walk: those without a dialog attribute. */
  function Starts(ws: seq<WalkLayer>): (r: seq<bool>)
    ensures |r| == |ws|
    ensures forall k :: 0 <= k < |ws| ==> r[k] == !ws[k].hasDialog
  {
    seq(|ws|, k requires 0 <= k < |ws| => !ws[k].hasDialog)
  }

  /** `_export_layer` over layers given by their own code and by who follows whom, with
      `depth` calls left before the interpreter's recursion limit: the layer's own code,
      then the walk of each layer that follows it, in list order. None when the limit is
      reached or some own code failed. */
  function Walk(own: seq<Option<string>>, follows: (nat, nat) -> bool, k: nat, depth: nat): Option<string>
    requires k < |own|
    decreases depth, 0
  {
    if depth == 0 then None
    else
      var fs := FollowerParts(own, follows, k, depth - 1);
      var rest := ScriptGeneratorBase.Collect(fs, |fs|);
      if own[k].None? || rest.None? then None else Some(own[k].value + rest.value)
  }

  /** For each layer, its walk when it follows layer k, and nothing otherwise. */
  function FollowerParts(own: seq<Option<string>>, follows: (nat, nat) -> bool, k: nat, depth: nat): (ps: seq<Option<string>>)
    requires k < |own|
    ensures |ps| == |own|
    decreases depth, 1
  {
    seq(|own|, i requires 0 <= i < |own| => if follows(i, k) then Walk(own, follows, i, depth) else Some(""))
  }

  /** The walk from layer k of the generator's layers. */
  function WalkSpec(cat: Catalogue, ws: seq<WalkLayer>, k: nat, depth: nat): Option<string>
    requires k < |ws|
  {
    Walk(Owns(cat, ws), Edges(ws), k, depth)
  }

  method ExportLayer(cat: Catalogue, ws: seq<WalkLayer>, k: nat, depth: nat) returns (r: Option<string>)
    requires k < |ws|
    ensures r == WalkSpec(cat, ws, k, depth)
    decreases depth, 1
  {
    if depth == 0 {
      return None;
    }
    var w := ws[k];
    OwnsAt(cat, ws, k);
    var code := LayerHead(w.layer.name);
    if w.layer.attrFilename.Some? {
      code := code + Push(w.layer.attrFilename.value, k);
    } else {
      assert code == code + "";
    }
    if w.hasDialog && w.layer.attrDialog.Some? {
      var e := Execute(cat, ws, w.layer.attrDialog.value, k);
      if e.None? {
        assert Owns(cat, ws)[k].None?;
        return None;
      }
      code := code + e.value;
    }
    assert Owns(cat, ws)[k] == Some(code);
    r := ExportFollowers(cat, ws, k, depth - 1, code);
  }

  /** The loop of `_export_layer` over the layers: the walk of every follower of layer k
      appended to its own code. */
  method ExportFollowers(cat: Catalogue, ws: seq<WalkLayer>, k: nat, depth: nat, own: string)
    returns (r: Option<string>)
    requires k < |ws|
    ensures var rest := ScriptGeneratorBase.Collect(FollowerParts(Owns(cat, ws), Edges(ws), k, depth), |ws|);
      r == if rest.None? then None else Some(own + rest.value)
    decreases depth, 2
  {
    ghost var fs := FollowerParts(Owns(cat, ws), Edges(ws), k, depth);
    var code := own;
    var i := 0;
    while i < |ws|
      invariant 0 <= i <= |ws|
      invariant ScriptGeneratorBase.Collect(fs, i).Some?
      invariant code == own + ScriptGeneratorBase.Collect(fs, i).value
    {
      FollowerPartAt(cat, ws, k, depth, i);
      if Follows(ws[i], ws[k]) {
        var sub := ExportLayer(cat, ws, i, depth);
        if sub.None? {
          ScriptGeneratorBase.CollectStaysNone(fs, i + 1, |ws|);
          return None;
        }
        AppendAssoc(own, ScriptGeneratorBase.Collect(fs, i).value, sub.value);
        code := code + sub.value;
      } else {
        assert ScriptGeneratorBase.Collect(fs, i + 1).value == ScriptGeneratorBase.Collect(fs, i).value + "";
      }
      i := i + 1;
    }
    return Some(code);
  }

  lemma FollowerPartAt(cat: Catalogue, ws: seq<WalkLayer>, k: nat, depth: nat, i: nat)
    requires k < |ws| && i < |ws|
    ensures FollowerParts(Owns(cat, ws), Edges(ws), k, depth)[i] ==
      if Follows(ws[i], ws[k]) then WalkSpec(cat, ws, i, depth) else Some("")
  {
    assert Edges(ws)(i, k) == Follows(ws[i], ws[k]);
  }

  /** For each layer, its walk when it starts one, and nothing otherwise. */
  function RootParts(own: seq<Option<string>>, follows: (nat, nat) -> bool, starts: seq<bool>, limit: nat): (ps: seq<Option<string>>)
    requires |starts| == |own|
    ensures |ps| == |own|
  {
    seq(|own|, i requires 0 <= i < |own| => if starts[i] then Walk(own, follows, i, limit) else Some(""))
  }

  /** The code of all walks, in list order of their start layers. */
  function Body(own: seq<Option<string>>, follows: (nat, nat) -> bool, starts: seq<bool>, limit: nat): Option<string>
    requires |starts| == |own|
  {
    ScriptGeneratorBase.Collect(RootParts(own, follows, starts, limit), |own|)
  }

  /** The closing lines: the last layer of the list is pulled and shown, whichever layer
      that is. */
  function Footer(count: int): string
  {
    "\n" + Comment(" show result") + "\n" + "from skimage.io " + "import imshow\n" + Shown(count)
  }

  function Shown(count: int): string
  {
    "imshow(" + "cle.pull_zyx(" + ImageName(count - 1) + "))\n"
  }

  function GenerateSpec(cat: Catalogue, ws: seq<WalkLayer>, limit: nat): Option<string>
  {
    var body := Body(Owns(cat, ws), Edges(ws), Starts(ws), limit);
    if body.None? then None else Some(Header() + body.value + Footer(|ws|))
  }

  /** `generate`: the header, the walk from every layer without a dialog attribute, and the
      footer; `limit` is the recursion budget left when the walks start. */
  method Generate(cat: Catalogue, ws: seq<WalkLayer>, limit: nat) returns (r: Option<string>)
    ensures r == GenerateSpec(cat, ws, limit)
  {
    var code := Header();
    ghost var ps := RootParts(Owns(cat, ws), Edges(ws), Starts(ws), limit);
    var i := 0;
    while i < |ws|
      invariant 0 <= i <= |ws|
      invariant ScriptGeneratorBase.Collect(ps, i).Some?
      invariant code == Header() + ScriptGeneratorBase.Collect(ps, i).value
    {
      if !ws[i].hasDialog {
        var part := ExportLayer(cat, ws, i, limit);
        assert part == ps[i];
        if part.None? {
          ScriptGeneratorBase.CollectStaysNone(ps, i + 1, |ws|);
          return None;
        }
        AppendAssoc(Header(), ScriptGeneratorBase.Collect(ps, i).value, part.value);
        code := code + part.value;
      } else {
        assert ps[i] == Some("");
        assert ScriptGeneratorBase.Collect(ps, i + 1).value == ScriptGeneratorBase.Collect(ps, i).value + "";
      }
      i := i + 1;
    }
    code := code + Footer(|ws|);
    return Some(code);
  }

  /** A walk starts with the layer's own code. */
  lemma WalkStartsWithOwn(own: seq<Option<string>>, follows: (nat, nat) -> bool, k: nat, depth: nat)
    requires k < |own|
    requires Walk(own, follows, k, depth).Some?
    ensures own[k].Some?
    ensures StartsWith(Walk(own, follows, k, depth).value, own[k].value)
  {
    var fs := FollowerParts(own, follows, k, depth - 1);
    StartsWithConcat(own[k].value, ScriptGeneratorBase.Collect(fs, |fs|).value);
  }

  /** Where the walk of follower j begins within the followers' code of layer k. */
  function FollowerOffset(own: seq<Option<string>>, follows: (nat, nat) -> bool, k: nat, j: nat, depth: nat): int
    requires k < |own| && j < |own| && depth > 0
  {
    var c := ScriptGeneratorBase.Collect(FollowerParts(own, follows, k, depth - 1), j);
    if c.Some? then |c.value| else 0
  }

  /** Every follower's walk appears in the walk of the layer it follows, after the layer's
      own code. */
  lemma FollowerInWalk(own: seq<Option<string>>, follows: (nat, nat) -> bool, k: nat, j: nat, depth: nat)
    requires k < |own| && j < |own|
    requires follows(j, k)
    requires Walk(own, follows, k, depth).Some?
    ensures depth > 0 && own[k].Some? && Walk(own, follows, j, depth - 1).Some?
    ensures OccursAt(Walk(own, follows, k, depth).value, Walk(own, follows, j, depth - 1).value,
      |own[k].value| + FollowerOffset(own, follows, k, j, depth))
  {
    var fs := FollowerParts(own, follows, k, depth - 1);
    assert fs[j] == Walk(own, follows, j, depth - 1);
    ScriptGeneratorBase.CollectAtIn(own[k].value, fs, "", j);
    assert own[k].value + ScriptGeneratorBase.Collect(fs, |fs|).value + "" == Walk(own, follows, k, depth).value;
  }

  /** Followers are walked in list order: an earlier follower's walk ends before a later
      one's begins. */
  lemma FollowersInOrder(own: seq<Option<string>>, follows: (nat, nat) -> bool, k: nat, j1: nat, j2: nat, depth: nat)
    requires k < |own| && j1 < j2 < |own|
    requires follows(j1, k) && follows(j2, k)
    requires Walk(own, follows, k, depth).Some?
    ensures depth > 0 && Walk(own, follows, j1, depth - 1).Some?
    ensures FollowerOffset(own, follows, k, j1, depth) + |Walk(own, follows, j1, depth - 1).value|
      <= FollowerOffset(own, follows, k, j2, depth)
  {
    var fs := FollowerParts(own, follows, k, depth - 1);
    ScriptGeneratorBase.CollectOrder(fs, j1, j2);
    assert fs[j1] == Walk(own, follows, j1, depth - 1);
  }

  /** A layer that follows itself is walked to from itself without end: its walk reaches
      the recursion limit, whatever the budget. */
  lemma {:induction false} SelfFollowerNeverEnds(own: seq<Option<string>>, follows: (nat, nat) -> bool, k: nat, depth: nat)
    requires k < |own|
    requires follows(k, k)
    ensures Walk(own, follows, k, depth).None?
  {
    if depth > 0 {
      SelfFollowerNeverEnds(own, follows, k, depth - 1);
      var fs := FollowerParts(own, follows, k, depth - 1);
      assert fs[k].None?;
      ScriptGeneratorBase.CollectNoneIff(fs, |fs|);
    }
  }

  /** When every follower comes after the layer it follows and no own code fails, a budget
      of one call per remaining layer is enough: the walk succeeds. */
  lemma {:induction false} WalkSucceeds(own: seq<Option<string>>, follows: (nat, nat) -> bool, k: nat, depth: nat)
    requires k < |own|
    requires forall i: nat, j: nat :: follows(i, j) ==> j < i
    requires forall i :: 0 <= i < |own| ==> own[i].Some?
    requires depth >= |own| - k
    ensures Walk(own, follows, k, depth).Some?
    decreases |own| - k
  {
    var fs := FollowerParts(own, follows, k, depth - 1);
    forall j | 0 <= j < |fs|
      ensures fs[j].Some?
    {
      if follows(j, k) {
        WalkSucceeds(own, follows, j, depth - 1);
      }
    }
    ScriptGeneratorBase.CollectNoneIff(fs, |fs|);
  }

  /** A layer that takes itself as an input makes its walk fail, whatever the budget. */
  lemma SelfInputFails(cat: Catalogue, ws: seq<WalkLayer>, k: nat, depth: nat)
    requires k < |ws|
    requires Follows(ws[k], ws[k])
    ensures WalkSpec(cat, ws, k, depth).None?
  {
    SelfFollowerNeverEnds(Owns(cat, ws), Edges(ws), k, depth);
  }

  /** Every follower comes after the layer it follows. */
  predicate Forward(ws: seq<WalkLayer>)
  {
    forall j, k :: 0 <= j < |ws| && 0 <= k < |ws| && Follows(ws[j], ws[k]) ==> k < j
  }

  /** Every dialog names an operation the catalogue knows. */
  predicate CallsKnown(cat: Catalogue, ws: seq<WalkLayer>)
  {
    forall k :: 0 <= k < |ws| && RecordsExec(ws[k]) ==>
      ws[k].layer.attrDialog.value.operationName.Some? && ws[k].layer.attrDialog.value.operationName.value in cat
  }

  /** Generation fails exactly when the walk from some layer without a dialog fails. */
  lemma GenerateFailsIff(cat: Catalogue, ws: seq<WalkLayer>, limit: nat)
    ensures GenerateSpec(cat, ws, limit).None? <==>
      exists k :: 0 <= k < |ws| && !ws[k].hasDialog && WalkSpec(cat, ws, k, limit).None?
  {
    var ps := RootParts(Owns(cat, ws), Edges(ws), Starts(ws), limit);
    ScriptGeneratorBase.CollectNoneIff(ps, |ps|);
    if exists k :: 0 <= k < |ws| && !ws[k].hasDialog && WalkSpec(cat, ws, k, limit).None? {
      var k :| 0 <= k < |ws| && !ws[k].hasDialog && WalkSpec(cat, ws, k, limit).None?;
      assert ps[k].None?;
    }
  }

  /** With forward dependencies, known operations and a budget of one call per layer, the
      script is generated. */
  lemma GenerateSucceeds(cat: Catalogue, ws: seq<WalkLayer>, limit: nat)
    requires Forward(ws) && CallsKnown(cat, ws)
    requires limit >= |ws|
    ensures GenerateSpec(cat, ws, limit).Some?
  {
    var own := Owns(cat, ws);
    forall i | 0 <= i < |own|
      ensures own[i].Some?
    {
      OwnsAt(cat, ws, i);
      OwnShape(cat, ws, i);
    }
    GenerateFailsIff(cat, ws, limit);
    forall k | 0 <= k < |ws|
      ensures WalkSpec(cat, ws, k, limit).Some?
    {
      WalkSucceeds(own, Edges(ws), k, limit);
    }
  }

  /** The script starts with the header and ends by showing `image{len(layers) - 1}`,
      whichever layers were walked. */
  lemma ScriptFrame(cat: Catalogue, ws: seq<WalkLayer>, limit: nat)
    requires GenerateSpec(cat, ws, limit).Some?
    ensures StartsWith(GenerateSpec(cat, ws, limit).value, Header())
    ensures EndsWith(GenerateSpec(cat, ws, limit).value, "imshow(" + "cle.pull_zyx(" + ImageName(|ws| - 1) + "))\n")
  {
    var body := Body(Owns(cat, ws), Edges(ws), Starts(ws), limit).value;
    var pre := "\n" + Comment(" show result") + "\n" + "from skimage.io " + "import imshow\n";
    AppendAssoc(Header(), body, Footer(|ws|));
    StartsWithConcat(Header(), body + Footer(|ws|));
    EndsWithConcat(pre, Shown(|ws|));
    EndsWithConcat(Header() + body, Footer(|ws|));
    EndsWithTrans(Header() + body + Footer(|ws|), Footer(|ws|), Shown(|ws|));
  }

  // ---------------------------------------------------------------------------------------
  // As written: the module imports only the base generator, so the `cle` of `_execute`
  // is an unbound name. The definitions above are the generator with `cle` imported, as
  // the sibling generators do.

  /** The own code of layer k as written: a layer with a call raises NameError at the first
      line of `_execute`; any other layer writes its comment and, with a file name, its push. */
  function OwnAsWritten(ws: seq<WalkLayer>, k: nat): (r: Option<string>)
    requires k < |ws|
    ensures r.None? <==> RecordsExec(ws[k])
  {
    var w := ws[k];
    if RecordsExec(w) then None
    else Some(LayerHead(w.layer.name) + (if RecordsPush(w) then Push(w.layer.attrFilename.value, k) else ""))
  }

  function OwnsAsWritten(ws: seq<WalkLayer>): (r: seq<Option<string>>)
    ensures |r| == |ws|
    ensures forall k :: 0 <= k < |ws| ==> r[k] == OwnAsWritten(ws, k)
  {
    seq(|ws|, k requires 0 <= k < |ws| => OwnAsWritten(ws, k))
  }

  /** `generate` as written. */
  function GenerateAsWritten(ws: seq<WalkLayer>, limit: nat): Option<string>
  {
    var body := Body(OwnsAsWritten(ws), Edges(ws), Starts(ws), limit);
    if body.None? then None else Some(Header() + body.value + Footer(|ws|))
  }

  /** As written, a script comes out only when no layer that starts a walk has a follower:
      every follower holds a call, and every call raises. */
  lemma AsWrittenFailsIff(ws: seq<WalkLayer>, limit: nat)
    requires limit > 0
    ensures GenerateAsWritten(ws, limit).None? <==>
      exists k, j :: 0 <= k < |ws| && 0 <= j < |ws| && !ws[k].hasDialog && Follows(ws[j], ws[k])
  {
    var own := OwnsAsWritten(ws);
    var ps := RootParts(own, Edges(ws), Starts(ws), limit);
    ScriptGeneratorBase.CollectNoneIff(ps, |ps|);
    if exists k, j :: 0 <= k < |ws| && 0 <= j < |ws| && !ws[k].hasDialog && Follows(ws[j], ws[k]) {
      var k, j :| 0 <= k < |ws| && 0 <= j < |ws| && !ws[k].hasDialog && Follows(ws[j], ws[k]);
      var fs := FollowerParts(own, Edges(ws), k, limit - 1);
      assert Edges(ws)(j, k);
      assert own[j].None?;
      assert Walk(own, Edges(ws), j, limit - 1).None?;
      assert fs[j].None?;
      ScriptGeneratorBase.CollectNoneIff(fs, |fs|);
      assert ps[k].None?;
    } else {
      forall k | 0 <= k < |ps|
        ensures ps[k].Some?
      {
        if !ws[k].hasDialog {
          var fs := FollowerParts(own, Edges(ws), k, limit - 1);
          forall j | 0 <= j < |fs|
            ensures fs[j] == Some("")
          {
            assert !Edges(ws)(j, k);
          }
          EmptyParts(fs, |fs|);
          assert own[k].Some?;
        }
      }
    }
  }

  /** The smallest case: a layer read from a file and one result whose first input it is.
      As written no script comes out; with `cle` imported it does. */
  lemma AsWrittenExample()
    ensures
      var source := Layer(0, "blobs", false, true, 2, None, None, "0", "255", Some("blobs.tif"), None);
      var d := Dialog(Some("gaussian_blur"), PlainFunction("", "", "", []), [Widget("input1", WLayer(0))]);
      var result := Layer(1, "Result", false, true, 2, None, None, "0", "255", None, Some(d));
      var ws := [WalkLayer(source, false), WalkLayer(result, true)];
      var cat := map["gaussian_blur" := ["input1"]];
      GenerateAsWritten(ws, 2).None? && GenerateSpec(cat, ws, 2).Some?
  {
    var source := Layer(0, "blobs", false, true, 2, None, None, "0", "255", Some("blobs.tif"), None);
    var d := Dialog(Some("gaussian_blur"), PlainFunction("", "", "", []), [Widget("input1", WLayer(0))]);
    var result := Layer(1, "Result", false, true, 2, None, None, "0", "255", None, Some(d));
    var ws := [WalkLayer(source, false), WalkLayer(result, true)];
    var cat := map["gaussian_blur" := ["input1"]];
    assert InputWidget(d.widgets, "input1") == Some(WLayer(0));
    assert Follows(ws[1], ws[0]);
    AsWrittenFailsIff(ws, 2);
    assert Forward(ws) by {
      forall j, k | 0 <= j < |ws| && 0 <= k < |ws| && Follows(ws[j], ws[k])
        ensures k < j
      {
        assert ws[j].hasDialog;
        assert j == 1;
        assert ws[j].layer.attrDialog.value.widgets == d.widgets;
        assert k != 1;
      }
    }
    GenerateSucceeds(cat, ws, 2);
  }

  /** Only layers without a dialog attribute start a walk: when every layer has one, the
      script is the header and the footer alone. */
  lemma NoStartNoCode(cat: Catalogue, ws: seq<WalkLayer>, limit: nat)
    requires forall k :: 0 <= k < |ws| ==> ws[k].hasDialog
    ensures GenerateSpec(cat, ws, limit) == Some(Header() + Footer(|ws|))
  {
    var ps := RootParts(Owns(cat, ws), Edges(ws), Starts(ws), limit);
    forall k | 0 <= k < |ps|
      ensures ps[k] == Some("")
    {
    }
    EmptyParts(ps, |ps|);
    assert Header() + "" == Header();
  }

  lemma {:induction false} EmptyParts(ps: seq<Option<string>>, i: nat)
    requires i <= |ps|
    requires forall k :: 0 <= k < |ps| ==> ps[k] == Some("")
    ensures ScriptGeneratorBase.Collect(ps, i) == Some("")
  {
    if i > 0 {
      EmptyParts(ps, i - 1);
      assert ScriptGeneratorBase.Collect(ps, i).value == "" + "";
    }
  }

  /** Where the walk from start layer k begins in the code of all walks. */
  function RootOffset(own: seq<Option<string>>, follows: (nat, nat) -> bool, starts: seq<bool>, limit: nat, k: nat): int
    requires |starts| == |own| && k < |own|
  {
    var c := ScriptGeneratorBase.Collect(RootParts(own, follows, starts, limit), k);
    if c.Some? then |c.value| else 0
  }

  /** The walk from every start layer sits in the code of all walks at its offset. */
  lemma RootWalkInBody(own: seq<Option<string>>, follows: (nat, nat) -> bool, starts: seq<bool>, limit: nat, k: nat)
    requires |starts| == |own| && k < |own| && starts[k]
    requires Body(own, follows, starts, limit).Some?
    ensures Walk(own, follows, k, limit).Some?
    ensures OccursAt(Body(own, follows, starts, limit).value, Walk(own, follows, k, limit).value, RootOffset(own, follows, starts, limit, k))
  {
    var ps := RootParts(own, follows, starts, limit);
    assert ps[k] == Walk(own, follows, k, limit);
    ScriptGeneratorBase.CollectAtIn("", ps, "", k);
    assert "" + ScriptGeneratorBase.Collect(ps, |ps|).value + "" == Body(own, follows, starts, limit).value;
  }

  /** The walks from the start layers come in list order. */
  lemma RootsInOrder(own: seq<Option<string>>, follows: (nat, nat) -> bool, starts: seq<bool>, limit: nat, k: nat, k2: nat)
    requires |starts| == |own| && k < k2 < |own| && starts[k]
    requires Body(own, follows, starts, limit).Some?
    ensures Walk(own, follows, k, limit).Some?
    ensures RootOffset(own, follows, starts, limit, k) + |Walk(own, follows, k, limit).value| <= RootOffset(own, follows, starts, limit, k2)
  {
    var ps := RootParts(own, follows, starts, limit);
    ScriptGeneratorBase.CollectOrder(ps, k, k2);
    assert ps[k] == Walk(own, follows, k, limit);
  }

  /** Where the walk of follower j begins inside the walk from start layer k. */
  function CopyOffset(own: seq<Option<string>>, follows: (nat, nat) -> bool, starts: seq<bool>, limit: nat, k: nat, j: nat): int
    requires |starts| == |own| && k < |own| && j < |own| && limit > 0
  {
    RootOffset(own, follows, starts, limit, k) + (if own[k].Some? then |own[k].value| else 0) + FollowerOffset(own, follows, k, j, limit)
  }

  /** The walk of a follower of a start layer sits inside that layer's walk. */
  lemma CopyInBody(own: seq<Option<string>>, follows: (nat, nat) -> bool, starts: seq<bool>, limit: nat, k: nat, j: nat)
    requires |starts| == |own| && k < |own| && j < |own| && starts[k]
    requires follows(j, k)
    requires Body(own, follows, starts, limit).Some?
    ensures limit > 0 && Walk(own, follows, j, limit - 1).Some? && Walk(own, follows, k, limit).Some?
    ensures OccursAt(Body(own, follows, starts, limit).value, Walk(own, follows, j, limit - 1).value, CopyOffset(own, follows, starts, limit, k, j))
    ensures RootOffset(own, follows, starts, limit, k) <= CopyOffset(own, follows, starts, limit, k, j)
    ensures CopyOffset(own, follows, starts, limit, k, j) + |Walk(own, follows, j, limit - 1).value|
      <= RootOffset(own, follows, starts, limit, k) + |Walk(own, follows, k, limit).value|
  {
    RootWalkInBody(own, follows, starts, limit, k);
    FollowerInWalk(own, follows, k, j, limit);
    var r := RootOffset(own, follows, starts, limit, k);
    var q := |own[k].value| + FollowerOffset(own, follows, k, j, limit);
    NestedBounds(Body(own, follows, starts, limit).value, Walk(own, follows, k, limit).value, r,
      Walk(own, follows, j, limit - 1).value, q, r + q);
  }

  /** A layer that follows two start layers is written twice, once inside each walk: its
      walk occurs at two places of the code that do not overlap. */
  lemma TwiceInBody(own: seq<Option<string>>, follows: (nat, nat) -> bool, starts: seq<bool>, limit: nat, k1: nat, k2: nat, j: nat)
    requires |starts| == |own| && k1 < k2 < |own| && j < |own| && starts[k1] && starts[k2]
    requires follows(j, k1) && follows(j, k2)
    requires Body(own, follows, starts, limit).Some?
    ensures limit > 0 && Walk(own, follows, j, limit - 1).Some?
    ensures OccursAt(Body(own, follows, starts, limit).value, Walk(own, follows, j, limit - 1).value, CopyOffset(own, follows, starts, limit, k1, j))
    ensures OccursAt(Body(own, follows, starts, limit).value, Walk(own, follows, j, limit - 1).value, CopyOffset(own, follows, starts, limit, k2, j))
    ensures CopyOffset(own, follows, starts, limit, k1, j) + |Walk(own, follows, j, limit - 1).value| <= CopyOffset(own, follows, starts, limit, k2, j)
  {
    CopyInBody(own, follows, starts, limit, k1, j);
    CopyInBody(own, follows, starts, limit, k2, j);
    RootsInOrder(own, follows, starts, limit, k1, k2);
  }

  /** A generated script is the header, the code of all walks and the footer. */
  lemma GenerateFrame(cat: Catalogue, ws: seq<WalkLayer>, limit: nat)
    requires GenerateSpec(cat, ws, limit).Some?
    ensures Body(Owns(cat, ws), Edges(ws), Starts(ws), limit).Some?
    ensures GenerateSpec(cat, ws, limit).value == Header() + Body(Owns(cat, ws), Edges(ws), Starts(ws), limit).value + Footer(|ws|)
  {
  }

  /** A layer whose dialog takes two layers without dialog attribute as its inputs is
      written twice in the script, once in each of their walks, without overlap. */
  lemma WrittenOncePerSource(cat: Catalogue, ws: seq<WalkLayer>, limit: nat, k1: nat, k2: nat, j: nat)
    requires k1 < k2 < |ws| && j < |ws|
    requires !ws[k1].hasDialog && !ws[k2].hasDialog
    requires Follows(ws[j], ws[k1]) && Follows(ws[j], ws[k2])
    requires GenerateSpec(cat, ws, limit).Some?
    ensures limit > 0 && WalkSpec(cat, ws, j, limit - 1).Some?
    ensures OccursAt(GenerateSpec(cat, ws, limit).value, WalkSpec(cat, ws, j, limit - 1).value,
      |Header()| + CopyOffset(Owns(cat, ws), Edges(ws), Starts(ws), limit, k1, j))
    ensures OccursAt(GenerateSpec(cat, ws, limit).value, WalkSpec(cat, ws, j, limit - 1).value,
      |Header()| + CopyOffset(Owns(cat, ws), Edges(ws), Starts(ws), limit, k2, j))
    ensures CopyOffset(Owns(cat, ws), Edges(ws), Starts(ws), limit, k1, j) + |WalkSpec(cat, ws, j, limit - 1).value|
      <= CopyOffset(Owns(cat, ws), Edges(ws), Starts(ws), limit, k2, j)
  {
    var own := Owns(cat, ws);
    var follows := Edges(ws);
    var starts := Starts(ws);
    assert follows(j, k1) && follows(j, k2);
    assert starts[k1] && starts[k2];
    GenerateFrame(cat, ws, limit);
    TwiceInScript(own, follows, starts, limit, k1, k2, j, Header(), Footer(|ws|));
    assert WalkSpec(cat, ws, j, limit - 1) == Walk(own, follows, j, limit - 1);
  }

  /** The same inside the code of all walks framed by a head and a tail. */
  lemma TwiceInScript(own: seq<Option<string>>, follows: (nat, nat) -> bool, starts: seq<bool>, limit: nat,
                      k1: nat, k2: nat, j: nat, h: string, f: string)
    requires |starts| == |own| && k1 < k2 < |own| && j < |own| && starts[k1] && starts[k2]
    requires follows(j, k1) && follows(j, k2)
    requires Body(own, follows, starts, limit).Some?
    ensures limit > 0 && Walk(own, follows, j, limit - 1).Some?
    ensures OccursAt(h + Body(own, follows, starts, limit).value + f, Walk(own, follows, j, limit - 1).value,
      |h| + CopyOffset(own, follows, starts, limit, k1, j))
    ensures OccursAt(h + Body(own, follows, starts, limit).value + f, Walk(own, follows, j, limit - 1).value,
      |h| + CopyOffset(own, follows, starts, limit, k2, j))
    ensures CopyOffset(own, follows, starts, limit, k1, j) + |Walk(own, follows, j, limit - 1).value|
      <= CopyOffset(own, follows, starts, limit, k2, j)
  {
    TwiceInBody(own, follows, starts, limit, k1, k2, j);
    var t := Walk(own, follows, j, limit - 1).value;
    var body := Body(own, follows, starts, limit).value;
    OccursAtShift(h, body, f, t, CopyOffset(own, follows, starts, limit, k1, j));
    OccursAtShift(h, body, f, t, CopyOffset(own, follows, starts, limit, k2, j));
  }
}
