/** The driver every generator shares: a header, then one fragment per layer in layer
    order (the operation's block for a layer made by a dialog, the image read for any
    other), the display fragment of each visible layer, and a final touch. */
module ScriptGeneratorBase {
  import opened Wrappers
  import opened Strings
  import opened Layers
  import JythonGenerator
  import PythonGenerator
  import ExportJython
  import Notebook

  /** The generators that share the driver: the two script generators, the Jython exporter
      and the notebook exporter built on it. */
  datatype Dialect = JythonScript | PythonScript | JythonExport | NotebookExport

  function Header(g: Dialect, version: string): string
  {
    match g
    case JythonScript => JythonGenerator.Header(version)
    case PythonScript => PythonGenerator.Header(version)
    case JythonExport => JythonGenerator.Header(version)
    case NotebookExport => Notebook.Header(version)
  }

  function Push(g: Dialect, layer: Layer, n: nat): string
  {
    match g
    case JythonScript => JythonGenerator.Push(layer, n)
    case PythonScript => PythonGenerator.Push(layer, n)
    case JythonExport => JythonGenerator.Push(layer, n)
    case NotebookExport => Notebook.Push(layer, n)
  }

  /** The block of a layer made by a dialog; None where the script generators fail. */
  function Execute(g: Dialect, cat: Catalogue, layers: seq<Layer>, layer: Layer, n: nat): Option<string>
    requires layer.dialog.Some?
  {
    match g
    case JythonScript => JythonGenerator.ExecuteSpec(cat, layers, layer, n)
    case PythonScript => PythonGenerator.ExecuteSpec(cat, layers, layer, n)
    case JythonExport => Some(ExportJython.ExecuteAsWritten(cat, layers, layer, n))
    case NotebookExport => Some(Notebook.ExecuteSpec(cat, layers, layer, n))
  }

  function Pull(g: Dialect, layer: Layer, n: nat): string
  {
    match g
    case JythonScript => JythonGenerator.Pull(layer, n)
    case PythonScript => PythonGenerator.Pull(layer, n)
    case JythonExport => ExportJython.Pull(layer, n)
    case NotebookExport => Notebook.Pull(layer, n)
  }

  /** `_finish`: the identity, except for the notebook, which closes its document. */
  function Finish(g: Dialect, code: string): string
  {
    if g == NotebookExport then Notebook.Finish(code) else code
  }

  /** `file_ending`: the base's ".txt" is overridden by every generator. */
  function FileEnding(g: Dialect): string
  {
    match g
    case JythonScript => JythonGenerator.FileEnding()
    case PythonScript => PythonGenerator.FileEnding()
    case JythonExport => ExportJython.FileEnding()
    case NotebookExport => Notebook.FileEnding()
  }

  /** The code one layer contributes: its block or its image read, then its display when
      it is visible. None when the block fails (adding None to a text raises). */
  function LayerCode(g: Dialect, cat: Catalogue, layers: seq<Layer>, layer: Layer, n: nat): Option<string>
  {
    var body := if layer.dialog.Some? then Execute(g, cat, layers, layer, n) else Some(Push(g, layer, n));
    if body.None? then None
    else Some(body.value + (if layer.visible then Pull(g, layer, n) else ""))
  }

  /** The code of every layer, each numbered by its position. */
  function Parts(g: Dialect, cat: Catalogue, layers: seq<Layer>): (ps: seq<Option<string>>)
    ensures |ps| == |layers|
    ensures forall k :: 0 <= k < |layers| ==> ps[k] == LayerCode(g, cat, layers, layers[k], k)
  {
    seq(|layers|, k requires 0 <= k < |layers| => LayerCode(g, cat, layers, layers[k], k))
  }

  /** The concatenation of the first i parts; None once one of them is None. */
  function Collect(ps: seq<Option<string>>, i: nat): Option<string>
    requires i <= |ps|
  {
    if i == 0 then Some("")
    else
      var before := Collect(ps, i - 1);
      if before.None? || ps[i - 1].None? then None else Some(before.value + ps[i - 1].value)
  }

  /** The header and the code of the layers, finished; None when a layer failed. */
  function Complete(g: Dialect, header: string, body: Option<string>): Option<string>
  {
    if body.None? then None else Some(Finish(g, header + body.value))
  }

  /** What `generate` gives after a given header. */
  function Assemble(g: Dialect, cat: Catalogue, header: string, layers: seq<Layer>): Option<string>
  {
    var ps := Parts(g, cat, layers);
    Complete(g, header, Collect(ps, |ps|))
  }

  function GenerateSpec(g: Dialect, cat: Catalogue, version: string, layers: seq<Layer>): Option<string>
  {
    Assemble(g, cat, Header(g, version), layers)
  }

  /** The dialect's `_execute`, run. */
  method RunExecute(g: Dialect, cat: Catalogue, layers: seq<Layer>, layer: Layer, n: nat) returns (r: Option<string>)
    requires layer.dialog.Some?
    ensures r == Execute(g, cat, layers, layer, n)
  {
    match g {
      case JythonScript =>
        r := JythonGenerator.Execute(cat, layers, layer, n);
      case PythonScript =>
        r := PythonGenerator.Execute(cat, layers, layer, n);
      case JythonExport =>
        var code := ExportJython.Execute(cat, layers, layer, n);
        r := Some(code);
      case NotebookExport =>
        var code := Notebook.Execute(cat, layers, layer, n);
        r := Some(code);
    }
  }

  /** `_export_layer`. */
  method ExportLayer(g: Dialect, cat: Catalogue, layers: seq<Layer>, layer: Layer, n: nat) returns (r: Option<string>)
    ensures r == LayerCode(g, cat, layers, layer, n)
    ensures layer.dialog.None? ==> r.Some?
  {
    var code: string;
    if layer.dialog.Some? {
      var block := RunExecute(g, cat, layers, layer, n);
      if block.None? {
        return None;
      }
      code := block.value;
    } else {
      code := Push(g, layer, n);
    }
    if layer.visible {
      code := code + Pull(g, layer, n);
    } else {
      assert code + "" == code;
    }
    r := Some(code);
  }

  /** `generate`: the header, then every layer in order; stops at the first layer whose
      block fails. */
  method Generate(g: Dialect, cat: Catalogue, version: string, layers: seq<Layer>) returns (r: Option<string>)
    ensures r == GenerateSpec(g, cat, version, layers)
  {
    var header := Header(g, version);
    r := AppendLayers(g, cat, header, layers);
  }

  /** The loop of `generate`: every layer's code after the header, then the finish. */
  method AppendLayers(g: Dialect, cat: Catalogue, header: string, layers: seq<Layer>) returns (r: Option<string>)
    ensures r == Assemble(g, cat, header, layers)
  {
    var code := CollectLayers(g, cat, header, layers);
    if code.None? {
      r := None;
    } else {
      r := Some(Finish(g, code.value));
    }
  }

  /** The loop of `generate` without the finish: every layer's code appended after the
      header, or None once a layer's block fails. */
  method CollectLayers(g: Dialect, cat: Catalogue, header: string, layers: seq<Layer>) returns (r: Option<string>)
    ensures Collect(Parts(g, cat, layers), |layers|).None? ==> r.None?
    ensures Collect(Parts(g, cat, layers), |layers|).Some? ==>
      r == Some(header + Collect(Parts(g, cat, layers), |layers|).value)
  {
    ghost var ps := Parts(g, cat, layers);
    var code := header;
    ghost var body := "";
    var failed := false;
    var i: nat := 0;
    while i < |layers| && !failed
      invariant i <= |layers|
      invariant !failed ==> Collect(ps, i) == Some(body) && code == header + body
      invariant failed ==> Collect(ps, |ps|).None?
      decreases |layers| - i, if failed then 0 else 1
    {
      failed, code, body := CollectLayer(g, cat, layers, ps, i, header, body, code);
      if !failed {
        i := i + 1;
      }
    }
    r := if failed then None else Some(code);
  }

  /** The code of layer i appended to the code collected so far, or the failure that
      ends the collection. */
  method CollectLayer(g: Dialect, cat: Catalogue, layers: seq<Layer>, ghost ps: seq<Option<string>>, i: nat,
                      ghost header: string, ghost body: string, code: string)
    returns (failed: bool, code': string, ghost body': string)
    requires ps == Parts(g, cat, layers) && i < |layers|
    requires Collect(ps, i) == Some(body) && code == header + body
    ensures failed ==> Collect(ps, |ps|).None?
    ensures !failed ==> Collect(ps, i + 1) == Some(body') && code' == header + body'
  {
    var part := ExportLayer(g, cat, layers, layers[i], i);
    AppendStep(ps, i, header, body, part);
    if part.None? {
      CollectStaysNone(ps, i + 1, |ps|);
      failed, code', body' := true, code, body;
    } else {
      failed, code', body' := false, code + part.value, body + part.value;
    }
  }

  /** One layer's part appended to the code collected so far. */
  lemma AppendStep(ps: seq<Option<string>>, i: nat, header: string, body: string, part: Option<string>)
    requires i < |ps| && part == ps[i]
    requires Collect(ps, i) == Some(body)
    ensures part.None? ==> Collect(ps, i + 1).None?
    ensures part.Some? ==> Collect(ps, i + 1) == Some(body + part.value)
    ensures part.Some? ==> header + body + part.value == header + (body + part.value)
  {
    if part.Some? {
      AppendAssoc(header, body, part.value);
    }
  }

  lemma CollectSnoc(ps: seq<Option<string>>, i: nat)
    requires i < |ps|
    requires Collect(ps, i).Some? && ps[i].Some?
    ensures Collect(ps, i + 1) == Some(Collect(ps, i).value + ps[i].value)
  {
  }

  /** Once a part fails, every longer prefix fails. */
  lemma {:induction false} CollectStaysNone(ps: seq<Option<string>>, i: nat, j: nat)
    requires i <= j <= |ps|
    requires Collect(ps, i).None?
    ensures Collect(ps, j).None?
    decreases j - i
  {
    if i < j {
      CollectStaysNone(ps, i + 1, j);
    }
  }

  /** The first i parts collect to None exactly when one of them is None. */
  lemma {:induction false} CollectNoneIff(ps: seq<Option<string>>, i: nat)
    requires i <= |ps|
    ensures Collect(ps, i).None? <==> exists k :: 0 <= k < i && ps[k].None?
  {
    if i > 0 {
      CollectNoneIff(ps, i - 1);
      if ps[i - 1].None? {
        assert Collect(ps, i).None?;
      }
    }
  }

  /** Generation fails exactly when some layer's block fails. */
  lemma GenerateFailsIff(g: Dialect, cat: Catalogue, version: string, layers: seq<Layer>)
    ensures GenerateSpec(g, cat, version, layers).None? <==>
      exists k :: 0 <= k < |layers| && LayerCode(g, cat, layers, layers[k], k).None?
  {
    AssembleFailsIff(g, cat, Header(g, version), layers);
  }

  lemma AssembleFailsIff(g: Dialect, cat: Catalogue, header: string, layers: seq<Layer>)
    ensures Assemble(g, cat, header, layers).None? <==>
      exists k :: 0 <= k < |layers| && LayerCode(g, cat, layers, layers[k], k).None?
  {
    var ps := Parts(g, cat, layers);
    CollectNoneIff(ps, |ps|);
    if exists k :: 0 <= k < |layers| && LayerCode(g, cat, layers, layers[k], k).None? {
      var k :| 0 <= k < |layers| && LayerCode(g, cat, layers, layers[k], k).None?;
      assert ps[k].None?;
    }
  }

  /** The cpython script reads the dialog from the layer's `dialog` attribute, while the
      driver dispatches on the metadata entry: a layer whose dialog is in its metadata only
      makes `_execute` raise AttributeError, and no script is generated. */
  lemma PythonScriptNeedsDialogAttribute(cat: Catalogue, version: string, layers: seq<Layer>, k: nat)
    requires k < |layers| && layers[k].dialog.Some? && layers[k].attrDialog.None?
    ensures GenerateSpec(PythonScript, cat, version, layers).None?
  {
    assert LayerCode(PythonScript, cat, layers, layers[k], k).None?;
    GenerateFailsIff(PythonScript, cat, version, layers);
  }

  /** The exporters never fail: their blocks fall back instead of giving None. */
  lemma ExportersNeverFail(g: Dialect, cat: Catalogue, version: string, layers: seq<Layer>)
    requires g == JythonExport || g == NotebookExport
    ensures GenerateSpec(g, cat, version, layers).Some?
  {
    AssembleNeverFails(g, cat, Header(g, version), layers);
  }

  lemma AssembleNeverFails(g: Dialect, cat: Catalogue, header: string, layers: seq<Layer>)
    requires g == JythonExport || g == NotebookExport
    ensures Assemble(g, cat, header, layers).Some?
  {
    var ps := Parts(g, cat, layers);
    CollectNoneIff(ps, |ps|);
    forall k | 0 <= k < |ps|
      ensures ps[k].Some?
    {
      assert ps[k] == LayerCode(g, cat, layers, layers[k], k);
    }
  }

  /** Layers come out in order: the code of a shorter prefix is a prefix of the code of a
      longer one. */
  lemma {:induction false} CollectPrefix(ps: seq<Option<string>>, j: nat, i: nat)
    requires j <= i <= |ps|
    requires Collect(ps, i).Some?
    ensures Collect(ps, j).Some?
    ensures StartsWith(Collect(ps, i).value, Collect(ps, j).value)
    decreases i - j
  {
    if j < i {
      CollectPrefix(ps, j, i - 1);
      var a := Collect(ps, j).value;
      var b := Collect(ps, i - 1).value;
      assert Collect(ps, i).value == b + ps[i - 1].value;
      assert (b + ps[i - 1].value)[..|a|] == b[..|a|];
    } else {
      var c := Collect(ps, i).value;
      assert c[..|c|] == c;
    }
  }

  /** Part j sits in the collected text right after the parts before it. */
  lemma CollectAt(ps: seq<Option<string>>, j: nat)
    requires j < |ps|
    requires Collect(ps, |ps|).Some?
    ensures Collect(ps, j).Some? && ps[j].Some?
    ensures |Collect(ps, j).value| + |ps[j].value| == |Collect(ps, j + 1).value|
    ensures OccursAt(Collect(ps, |ps|).value, ps[j].value, |Collect(ps, j).value|)
  {
    CollectPrefix(ps, j + 1, |ps|);
    var full := Collect(ps, |ps|).value;
    var a := Collect(ps, j).value;
    var b := Collect(ps, j + 1).value;
    assert b == a + ps[j].value;
    assert full[..|b|] == b;
    assert full[|a|..|b|] == b[|a|..];
  }

  /** Part j sits in a text made of a head, the collected parts and a tail at the head's
      length plus the length of the parts before it. */
  lemma CollectAtIn(h: string, ps: seq<Option<string>>, f: string, j: nat)
    requires j < |ps|
    requires Collect(ps, |ps|).Some?
    ensures Collect(ps, j).Some? && ps[j].Some?
    ensures OccursAt(h + Collect(ps, |ps|).value + f, ps[j].value, |h| + |Collect(ps, j).value|)
  {
    CollectAt(ps, j);
    OccursAtShift(h, Collect(ps, |ps|).value, f, ps[j].value, |Collect(ps, j).value|);
  }

  /** Part k ends before the parts from k2 on begin. */
  lemma CollectOrder(ps: seq<Option<string>>, k: nat, k2: nat)
    requires k < k2 <= |ps|
    requires Collect(ps, |ps|).Some?
    ensures Collect(ps, k).Some? && ps[k].Some? && Collect(ps, k2).Some?
    ensures |Collect(ps, k).value| + |ps[k].value| <= |Collect(ps, k2).value|
  {
    CollectLonger(ps, k2, |ps|);
    CollectLonger(ps, k + 1, k2);
    var c := Collect(ps, k + 1);
    assert c.value == Collect(ps, k).value + ps[k].value;
  }

  /** A longer prefix of the parts collects to a text at least as long. */
  lemma CollectLonger(ps: seq<Option<string>>, j: nat, i: nat)
    requires j <= i <= |ps|
    requires Collect(ps, i).Some?
    ensures Collect(ps, j).Some? && |Collect(ps, j).value| <= |Collect(ps, i).value|
  {
    CollectPrefix(ps, j, i);
  }

  /** Layer k's code sits right after the code of the layers before it. */
  lemma LayerFollowsPrefix(g: Dialect, cat: Catalogue, layers: seq<Layer>, k: nat)
    requires k < |layers|
    requires Collect(Parts(g, cat, layers), k + 1).Some?
    ensures Collect(Parts(g, cat, layers), k).Some?
    ensures LayerCode(g, cat, layers, layers[k], k).Some?
    ensures Collect(Parts(g, cat, layers), k + 1).value ==
      Collect(Parts(g, cat, layers), k).value + LayerCode(g, cat, layers, layers[k], k).value
  {
  }

  /** A layer's display is emitted exactly when the layer is visible; a layer not made by a
      dialog is read from its source. */
  lemma LayerCodeShape(g: Dialect, cat: Catalogue, layers: seq<Layer>, layer: Layer, n: nat)
    requires LayerCode(g, cat, layers, layer, n).Some?
    ensures layer.visible ==> EndsWith(LayerCode(g, cat, layers, layer, n).value, Pull(g, layer, n))
    ensures layer.dialog.None? ==> StartsWith(LayerCode(g, cat, layers, layer, n).value, Push(g, layer, n))
    ensures layer.dialog.None? && !layer.visible ==> LayerCode(g, cat, layers, layer, n).value == Push(g, layer, n)
    ensures layer.dialog.Some? && !layer.visible ==>
      Some(LayerCode(g, cat, layers, layer, n).value) == Execute(g, cat, layers, layer, n)
  {
    var body := if layer.dialog.Some? then Execute(g, cat, layers, layer, n) else Some(Push(g, layer, n));
    var tail := if layer.visible then Pull(g, layer, n) else "";
    assert LayerCode(g, cat, layers, layer, n).value == body.value + tail;
    EndsWithConcat(body.value, tail);
    StartsWithConcat(body.value, tail);
    assert body.value + "" == body.value;
  }

  /** A script starts with its generator's header. */
  lemma ScriptStartsWithHeader(g: Dialect, cat: Catalogue, version: string, layers: seq<Layer>)
    requires g != NotebookExport
    requires GenerateSpec(g, cat, version, layers).Some?
    ensures StartsWith(GenerateSpec(g, cat, version, layers).value, Header(g, version))
  {
    AssembleStartsWithHeader(g, cat, Header(g, version), layers);
  }

  lemma AssembleStartsWithHeader(g: Dialect, cat: Catalogue, header: string, layers: seq<Layer>)
    requires g != NotebookExport
    requires Assemble(g, cat, header, layers).Some?
    ensures StartsWith(Assemble(g, cat, header, layers).value, header)
  {
    var ps := Parts(g, cat, layers);
    StartsWithConcat(header, Collect(ps, |ps|).value);
  }

  /** Every notebook fragment is a sequence of closed cells. */
  lemma NotebookLayerCells(cat: Catalogue, layers: seq<Layer>, layer: Layer, n: nat)
    ensures EndsWith(LayerCode(NotebookExport, cat, layers, layer, n).value, "},")
  {
    var g := NotebookExport;
    var body := if layer.dialog.Some? then Execute(g, cat, layers, layer, n) else Some(Push(g, layer, n));
    if layer.dialog.Some? {
      Notebook.ExecuteCells(cat, layers, layer, n);
    }
    if layer.visible {
      EndsWithConcat(body.value, Pull(g, layer, n));
      EndsWithTrans(body.value + Pull(g, layer, n), Pull(g, layer, n), "},");
    } else {
      assert body.value + "" == body.value;
    }
  }

  /** Parts that are all closed cells collect to nothing or to closed cells. */
  lemma {:induction false} CollectCells(ps: seq<Option<string>>, i: nat, suffix: string)
    requires i <= |ps|
    requires forall k :: 0 <= k < |ps| ==> ps[k].Some? && EndsWith(ps[k].value, suffix)
    ensures Collect(ps, i).Some?
    ensures Collect(ps, i).value == "" || EndsWith(Collect(ps, i).value, suffix)
  {
    if i > 0 {
      CollectCells(ps, i - 1, suffix);
      var b := Collect(ps, i - 1).value;
      var p := ps[i - 1].value;
      assert EndsWith(p, suffix);
      assert Collect(ps, i).value == b + p;
      EndsWithConcat(b, p);
      EndsWithTrans(b + p, p, suffix);
    }
  }

  /** Finishing a header of closed cells followed by closed cells keeps the opening and
      ends with the format version. */
  lemma FinishNotebook(h: string, body: string)
    requires StartsWith(h, Notebook.Opening()) && EndsWith(h, "},") && |h| >= |Notebook.Opening()| + 2
    requires body == "" || EndsWith(body, "},")
    ensures StartsWith(Notebook.Finish(h + body), Notebook.Opening())
    ensures EndsWith(Notebook.Finish(h + body), Notebook.NbFormat())
  {
    var o := Notebook.Opening();
    var code := h + body;
    if body == "" {
      assert code == h;
    } else {
      EndsWithConcat(h, body);
      EndsWithTrans(code, body, "},");
    }
    Notebook.FinishClosesCells(code);
    StartsWithConcat(h, body);
    StartsWithTrans(code, h, o);
    Notebook.DropLastKeepsPrefix(code, o);
    StartsWithTrans(Notebook.Finish(code), Notebook.DropLast(code), o);
  }

  lemma PartsAreCells(cat: Catalogue, layers: seq<Layer>)
    ensures var ps := Parts(NotebookExport, cat, layers);
      forall k :: 0 <= k < |ps| ==> ps[k].Some? && EndsWith(ps[k].value, "},")
  {
    var ps := Parts(NotebookExport, cat, layers);
    forall k | 0 <= k < |ps|
      ensures ps[k].Some? && EndsWith(ps[k].value, "},")
    {
      NotebookLayerCells(cat, layers, layers[k], k);
    }
  }

  /** When every layer's code is there, `generate` finishes the header and that code. */
  lemma AssembleSome(g: Dialect, cat: Catalogue, header: string, layers: seq<Layer>)
    requires Collect(Parts(g, cat, layers), |layers|).Some?
    ensures Assemble(g, cat, header, layers) == Some(Finish(g, header + Collect(Parts(g, cat, layers), |layers|).value))
  {
  }

  /** After a notebook header, the layers' cells keep the document well formed. */
  lemma AssembleNotebook(cat: Catalogue, h: string, layers: seq<Layer>)
    requires StartsWith(h, Notebook.Opening()) && EndsWith(h, "},") && |h| >= |Notebook.Opening()| + 2
    ensures Assemble(NotebookExport, cat, h, layers).Some?
    ensures StartsWith(Assemble(NotebookExport, cat, h, layers).value, Notebook.Opening())
    ensures EndsWith(Assemble(NotebookExport, cat, h, layers).value, Notebook.NbFormat())
  {
    var ps := Parts(NotebookExport, cat, layers);
    PartsAreCells(cat, layers);
    CollectCells(ps, |ps|, "},");
    var body := Collect(ps, |ps|).value;
    FinishNotebook(h, body);
    AssembleSome(NotebookExport, cat, h, layers);
  }

  /** A notebook is always generated; it starts with the document's opening brace and the
      start of its cell list, and ends with the nbformat 4 / nbformat_minor 4 lines. */
  lemma NotebookWellFormed(cat: Catalogue, version: string, layers: seq<Layer>)
    ensures GenerateSpec(NotebookExport, cat, version, layers).Some?
    ensures StartsWith(GenerateSpec(NotebookExport, cat, version, layers).value, Notebook.Opening())
    ensures EndsWith(GenerateSpec(NotebookExport, cat, version, layers).value, Notebook.NbFormat())
  {
    var h := Notebook.Header(version);
    assert Header(NotebookExport, version) == h;
    Notebook.HeaderShape(version);
    AssembleNotebook(cat, h, layers);
  }
}
