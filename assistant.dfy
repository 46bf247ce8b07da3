/** The assistant widget's bookkeeping: which result layers it tracks (with the dialog that
    made each), how a layer is dropped when the viewer removes it, and how `to_dask` turns
    the tracked dialogs into a task graph of named entries. */
module Assistant {
  import opened Wrappers
  import opened Strings
  import CategoryWidget

  /** The key a graph name is assigned for: an operation id from a layer's metadata, or the
      fallback key "some_random_key" shared by every layer without one. */
  datatype Key = OpKey(id: nat) | RandomKey

  /** A layer held by a dialog widget: the operation id in its metadata, if any, and the
      printed path of its source, when it has a source. */
  datatype InputLayer = InputLayer(opId: Option<nat>, sourcePath: Option<string>)

  /** What a dialog widget holds: a layer, a string, or any other value printed as text. */
  datatype Value = LayerRef(layer: InputLayer) | Str(s: string) | Num(text: string)

  datatype Widget = Widget(name: string, value: Value)

  /** A tracked result layer with the dialog that produced it: the layer's identity and
      operation id, whether it is a labels layer, its contrast limits as text, the dialog's
      widgets in order and the value of its `op_name` widget. */
  datatype Tracked = Tracked(
    id: nat,
    opId: Option<nat>,
    isLabels: bool,
    climLo: string,
    climHi: string,
    widgets: seq<Widget>,
    opName: string)

  /** The callable of a graph entry: `cle.imread`, the operation found by name, or None. */
  datatype Op = Imread | Operation(name: string) | NoOp

  /** A graph entry: callable, input names, literal arguments, labels flag, contrast limits. */
  datatype Entry = Entry(op: Op, inputs: seq<string>, args: seq<Value>, isLabels: bool, climLo: string, climHi: string)

  const ViewerParam: string := "viewer"
  const OpNameParam: string := "op_name"

  function ImageName(n: nat): string
  {
    "image" + NatToString(n)
  }

  lemma ImageNameInjective(a: nat, b: nat)
    requires ImageName(a) == ImageName(b)
    ensures a == b
  {
    assert NatToString(a) == ImageName(a)[5..] == ImageName(b)[5..] == NatToString(b);
    NatToStringInjective(a, b);
  }

  // ---------------------------------------------------------------------------------------
  // _id_to_name

  /** `_id_to_name`: the stored name of a known key; a new key gets "image" + the number of
      keys so far. Returns the name and the updated dictionary. */
  function IdToName(key: Key, names: map<Key, string>): (r: (string, map<Key, string>))
    ensures key in r.1 && r.0 == r.1[key]
    ensures key in names ==> r.1 == names
    ensures key !in names ==> r.0 == ImageName(|names|) && r.1 == names[key := r.0]
  {
    if key in names then (names[key], names)
    else (ImageName(|names|), names[key := ImageName(|names|)])
  }

  /** The dictionary was filled by `_id_to_name` alone: its names are image0, image1, ...,
      one per key, no two keys sharing one. */
  predicate Numbered(names: map<Key, string>)
  {
    && (forall k :: k in names ==> exists i :: 0 <= i < |names| && names[k] == ImageName(i))
    && (forall k1, k2 :: k1 in names && k2 in names && names[k1] == names[k2] ==> k1 == k2)
  }

  /** The names are assigned in first-seen order and stay distinct. */
  lemma IdToNameKeepsNumbered(key: Key, names: map<Key, string>)
    requires Numbered(names)
    ensures Numbered(IdToName(key, names).1)
  {
    if key !in names {
      NewNameFresh(names);
      ExtendNumbered(names, key);
    }
  }

  /** The next name is none of the names given so far. */
  lemma NewNameFresh(names: map<Key, string>)
    requires Numbered(names)
    ensures forall k :: k in names ==> names[k] != ImageName(|names|)
  {
    forall k | k in names
      ensures names[k] != ImageName(|names|)
    {
      var i :| 0 <= i < |names| && names[k] == ImageName(i);
      if names[k] == ImageName(|names|) {
        ImageNameInjective(i, |names|);
      }
    }
  }

  lemma ExtendNumbered(names: map<Key, string>, key: Key)
    requires Numbered(names) && key !in names
    requires forall k :: k in names ==> names[k] != ImageName(|names|)
    ensures Numbered(names[key := ImageName(|names|)])
  {
    var d := names[key := ImageName(|names|)];
    assert |d| == |names| + 1;
    forall k | k in d
      ensures exists i :: 0 <= i < |d| && d[k] == ImageName(i)
    {
      if k == key {
        assert d[k] == ImageName(|names|);
      } else {
        var i :| 0 <= i < |names| && names[k] == ImageName(i);
        assert d[k] == ImageName(i);
      }
    }
    forall k1, k2 | k1 in d && k2 in d && d[k1] == d[k2]
      ensures k1 == k2
    {
      if k1 != key && k2 != key {
        assert names[k1] == names[k2];
      }
    }
  }

  /** Asking again is harmless: a second call returns the same name and changes nothing. */
  lemma IdToNameIdempotent(key: Key, names: map<Key, string>)
    ensures var (name, after) := IdToName(key, names);
      IdToName(key, after) == (name, after)
  {
  }

  /** The dictionary only grows: every earlier key keeps its name. */
  predicate Grows(before: map<Key, string>, after: map<Key, string>)
  {
    forall k :: k in before ==> k in after && after[k] == before[k]
  }

  // ---------------------------------------------------------------------------------------
  // The widget scan of to_dask

  /** What the widget loop of `to_dask` carries: the graph, the name dictionary, and the
      input names and literal arguments of the current dialog. */
  datatype Scan = Scan(graph: map<string, Entry>, names: map<Key, string>, inputs: seq<string>, args: seq<Value>)

  /** The viewer and operation-name widgets are not arguments. */
  predicate Considered(w: Widget)
  {
    w.name != ViewerParam && w.name != OpNameParam
  }

  /** The source of a layer without an operation id: its path with '\' turned into '/', or
      "file" when it has no source. */
  function SourceText(l: InputLayer): string
  {
    if l.sourcePath.Some? then ReplaceAll(l.sourcePath.value, "\\", "/") else "file"
  }

  /** The read entry filed for such a layer; it carries the contrast limits of the tracked
      result layer being scanned. */
  function ReadEntry(l: InputLayer, t: Tracked): Entry
  {
    Entry(Imread, ["'" + SourceText(l) + "'"], [], false, t.climLo, t.climHi)
  }

  function KeyOf(l: InputLayer): Key
  {
    if l.opId.Some? then OpKey(l.opId.value) else RandomKey
  }

  /** One widget of the dialog of `t`. A layer without an operation id is looked up twice
      under the fallback key, once for its read entry and once as an input; the second
      lookup returns the first one's name (IdToNameIdempotent), so one lookup stands for
      both. */
  function ScanWidget(s: Scan, w: Widget, t: Tracked): Scan
  {
    if !Considered(w) then s
    else match w.value
      case LayerRef(l) =>
        var (name, names) := IdToName(KeyOf(l), s.names);
        var graph := if l.opId.None? then s.graph[name := ReadEntry(l, t)] else s.graph;
        Scan(graph, names, s.inputs + [name], s.args)
      case _ => s.(args := s.args + [w.value])
  }

  /** The widgets of `ws`, scanned in order. */
  function ScanAll(s: Scan, ws: seq<Widget>, t: Tracked): Scan
  {
    if ws == [] then s
    else ScanWidget(ScanAll(s, ws[..|ws| - 1], t), ws[|ws| - 1], t)
  }

  /** Reference definitions: the literal arguments are the non-layer values of the
      considered widgets, and the input keys are the keys of their layers, in order. */
  function ArgValues(ws: seq<Widget>): seq<Value>
  {
    if ws == [] then []
    else
      var w := ws[|ws| - 1];
      ArgValues(ws[..|ws| - 1]) + (if Considered(w) && !w.value.LayerRef? then [w.value] else [])
  }

  function InputKeys(ws: seq<Widget>): seq<Key>
  {
    if ws == [] then []
    else
      var w := ws[|ws| - 1];
      InputKeys(ws[..|ws| - 1]) + (if Considered(w) && w.value.LayerRef? then [KeyOf(w.value.layer)] else [])
  }

  /** Every graph name is a handed-out name. */
  predicate GraphNamed(graph: map<string, Entry>, names: map<Key, string>)
  {
    forall n :: n in graph ==> n in names.Values
  }

  /** One widget: arguments and inputs grow by its contribution, the dictionary grows, and
      every graph name stays a handed-out name. */
  lemma ScanWidgetFacts(s: Scan, w: Widget, t: Tracked)
    ensures var r := ScanWidget(s, w, t);
      && r.args == s.args + (if Considered(w) && !w.value.LayerRef? then [w.value] else [])
      && (Considered(w) && w.value.LayerRef? ==>
            KeyOf(w.value.layer) in r.names && r.inputs == s.inputs + [r.names[KeyOf(w.value.layer)]])
      && (!(Considered(w) && w.value.LayerRef?) ==> r.inputs == s.inputs)
      && Grows(s.names, r.names)
      && (GraphNamed(s.graph, s.names) ==> GraphNamed(r.graph, r.names))
  {
  }

  /** The scan appends the literal arguments and one input name per layer widget, in widget
      order, naming each input by its key in the grown dictionary. */
  lemma {:induction false} ScanAllFacts(s: Scan, ws: seq<Widget>, t: Tracked)
    ensures var r := ScanAll(s, ws, t);
      && r.args == s.args + ArgValues(ws)
      && |r.inputs| == |s.inputs| + |InputKeys(ws)|
      && r.inputs[..|s.inputs|] == s.inputs
      && Grows(s.names, r.names)
      && (GraphNamed(s.graph, s.names) ==> GraphNamed(r.graph, r.names))
      && (forall i :: 0 <= i < |InputKeys(ws)| ==> InputKeys(ws)[i] in r.names && r.inputs[|s.inputs| + i] == r.names[InputKeys(ws)[i]])
    decreases |ws|
  {
    if ws != [] {
      var init := ws[..|ws| - 1];
      var w := ws[|ws| - 1];
      ScanAllFacts(s, init, t);
      var m := ScanAll(s, init, t);
      ScanWidgetFacts(m, w, t);
      var r := ScanWidget(m, w, t);
      assert r == ScanAll(s, ws, t);
      assert r.args == s.args + ArgValues(ws) by {
        assert m.args == s.args + ArgValues(init);
      }
      if Considered(w) && w.value.LayerRef? {
        assert InputKeys(ws) == InputKeys(init) + [KeyOf(w.value.layer)];
      } else {
        assert InputKeys(ws) == InputKeys(init);
      }
    }
  }

  /** The scan keeps the dictionary numbered. */
  lemma {:induction false} ScanAllNumbered(s: Scan, ws: seq<Widget>, t: Tracked)
    requires Numbered(s.names)
    ensures Numbered(ScanAll(s, ws, t).names)
    decreases |ws|
  {
    if ws != [] {
      ScanAllNumbered(s, ws[..|ws| - 1], t);
      var m := ScanAll(s, ws[..|ws| - 1], t);
      var w := ws[|ws| - 1];
      if Considered(w) && w.value.LayerRef? {
        IdToNameKeepsNumbered(KeyOf(w.value.layer), m.names);
      }
    }
  }

  /** All read entries of a dialog go under one graph name, the name of the shared fallback
      key; no other graph entry changes. */
  lemma {:induction false} ReadEntriesShareOneName(s: Scan, ws: seq<Widget>, t: Tracked)
    ensures var r := ScanAll(s, ws, t);
      forall n :: n in r.graph && (n !in s.graph || r.graph[n] != s.graph[n]) ==>
        RandomKey in r.names && n == r.names[RandomKey]
    ensures Grows(s.names, ScanAll(s, ws, t).names)
    decreases |ws|
  {
    if ws != [] {
      ReadEntriesShareOneName(s, ws[..|ws| - 1], t);
    }
  }

  /** A considered layer widget without an operation id files a read entry under the shared
      name: `cle.imread` of the quoted source, no arguments, not labels, and a source text
      without backslashes. */
  lemma ReadEntryFiled(s: Scan, w: Widget, t: Tracked)
    requires Considered(w) && w.value.LayerRef? && w.value.layer.opId.None?
    ensures var r := ScanWidget(s, w, t);
      && RandomKey in r.names
      && r.graph[r.names[RandomKey]] == Entry(Imread, ["'" + SourceText(w.value.layer) + "'"], [], false, t.climLo, t.climHi)
      && r.inputs == s.inputs + [r.names[RandomKey]]
      && '\\' !in SourceText(w.value.layer)
  {
    var l := w.value.layer;
    if l.sourcePath.Some? {
      ReplaceCharRemoves(l.sourcePath.value, '\\', "/");
    }
  }

  // ---------------------------------------------------------------------------------------
  // Argument truncation

  /** `args[:nargs]` as written, with Python's slicing: a negative bound counts from the end. */
  function SliceAsWritten(args: seq<Value>, nargs: int): (r: seq<Value>)
    ensures |r| <= |args| && r == args[..|r|]
  {
    if nargs >= 0 then (if nargs < |args| then args[..nargs] else args)
    else if |args| + nargs >= 0 then args[..|args| + nargs]
    else []
  }

  /** With more dialog inputs than the operation has image parameters, `nargs` is negative and
      the slice keeps all but the last argument instead of none. */
  lemma SliceAsWrittenKeepsUnused()
    ensures SliceAsWritten([Num("1"), Num("2")], -1) == [Num("1")]
  {
  }

  /** The arguments evidently meant to be kept for an operation with room for `nargs`
      literal arguments: the first `nargs`, none when `nargs` is not positive. The graph
      itself is built with `SliceAsWritten`. */
  function KeepArgs(args: seq<Value>, nargs: int): (r: seq<Value>)
    ensures |r| == if nargs <= 0 then 0 else if nargs < |args| then nargs else |args|
    ensures r == args[..|r|]
  {
    if nargs <= 0 then [] else if nargs < |args| then args[..nargs] else args
  }

  /** The two agree whenever the bound is not negative. */
  lemma KeepArgsAgreesWhenNonNegative(args: seq<Value>, nargs: int)
    requires nargs >= 0
    ensures KeepArgs(args, nargs) == SliceAsWritten(args, nargs)
  {
  }

  /** The number of literal arguments the operation has room for: its positional count,
      less the output and the inputs. */
  function RoomForArgs(f: CategoryWidget.Function, inputCount: nat): int
  {
    CategoryWidget.NumPositionalArgs(f) - 1 - inputCount
  }

  // ---------------------------------------------------------------------------------------
  // to_dask

  /** The graph and name dictionary `to_dask` carries from one tracked layer to the next. */
  datatype Graph = Graph(graph: map<string, Entry>, names: map<Key, string>)

  function OwnKey(t: Tracked): Key
  {
    if t.opId.Some? then OpKey(t.opId.value) else RandomKey
  }

  /** The entry of a tracked layer, given the scan of its dialog: the operation found by name
      with its literal arguments cut by `args[:nargs]`, or no operation and all arguments. */
  function EntryOf(t: Tracked, sc: Scan, functions: CategoryWidget.Functions): Entry
  {
    if t.opName in functions then
      Entry(Operation(t.opName), sc.inputs, SliceAsWritten(sc.args, RoomForArgs(functions[t.opName], |sc.inputs|)), t.isLabels, t.climLo, t.climHi)
    else Entry(NoOp, sc.inputs, sc.args, t.isLabels, t.climLo, t.climHi)
  }

  /** One tracked layer: scan its dialog, then file its entry under the name of its key. */
  function EntryStep(g: Graph, t: Tracked, functions: CategoryWidget.Functions): Graph
  {
    var sc := ScanAll(Scan(g.graph, g.names, [], []), t.widgets, t);
    var (name, names) := IdToName(OwnKey(t), sc.names);
    Graph(sc.graph[name := EntryOf(t, sc, functions)], names)
  }

  function ToDaskSpec(ts: seq<Tracked>, functions: CategoryWidget.Functions): Graph
  {
    if ts == [] then Graph(map[], map[])
    else EntryStep(ToDaskSpec(ts[..|ts| - 1], functions), ts[|ts| - 1], functions)
  }

  /** The entry filed for `t`: the operation, the input names and literal arguments of its
      dialog in widget order (viewer and op_name widgets skipped), the arguments cut by
      `args[:nargs]` with the operation's room as the bound, its labels flag and both
      contrast limits. */
  predicate EntryFiled(e: Entry, t: Tracked, names: map<Key, string>, functions: CategoryWidget.Functions)
  {
    var keys := InputKeys(t.widgets);
    && e.op == (if t.opName in functions then Operation(t.opName) else NoOp)
    && e.isLabels == t.isLabels && e.climLo == t.climLo && e.climHi == t.climHi
    && |e.inputs| == |keys|
    && (forall i :: 0 <= i < |keys| ==> keys[i] in names && e.inputs[i] == names[keys[i]])
    && e.args == (if t.opName in functions then SliceAsWritten(ArgValues(t.widgets), RoomForArgs(functions[t.opName], |keys|)) else ArgValues(t.widgets))
  }

  /** After a tracked layer, the name of its own key holds the entry filed for it, and the
      dictionary grows. */
  lemma EntryStepFiles(g: Graph, t: Tracked, functions: CategoryWidget.Functions)
    ensures var r := EntryStep(g, t, functions);
      && OwnKey(t) in r.names && r.names[OwnKey(t)] in r.graph
      && Grows(g.names, r.names)
      && EntryFiled(r.graph[r.names[OwnKey(t)]], t, r.names, functions)
  {
    var s := Scan(g.graph, g.names, [], []);
    ScanAllFacts(s, t.widgets, t);
    var sc := ScanAll(s, t.widgets, t);
    var names := IdToName(OwnKey(t), sc.names).1;
    var e := EntryOf(t, sc, functions);
    assert EntryStep(g, t, functions) == Graph(sc.graph[names[OwnKey(t)] := e], names);
    assert sc.inputs[|s.inputs|..] == sc.inputs;
    InputsStayNamed(InputKeys(t.widgets), sc.inputs, sc.names, names);
  }

  /** Input names read from a dictionary stay its names once it has grown. */
  lemma InputsStayNamed(keys: seq<Key>, inputs: seq<string>, before: map<Key, string>, after: map<Key, string>)
    requires |inputs| == |keys| && Grows(before, after)
    requires forall i :: 0 <= i < |keys| ==> keys[i] in before && inputs[i] == before[keys[i]]
    ensures forall i :: 0 <= i < |keys| ==> keys[i] in after && inputs[i] == after[keys[i]]
  {
  }

  /** Naming survives a growing dictionary and the filing of an entry under a handed-out
      name. */
  lemma GraphNamedStep(graph: map<string, Entry>, before: map<Key, string>, after: map<Key, string>, key: Key, e: Entry)
    requires GraphNamed(graph, before) && Grows(before, after) && key in after
    ensures GraphNamed(graph[after[key] := e], after)
  {
    forall n | n in graph[after[key] := e] ensures n in after.Values {
      if n != after[key] {
        var k :| k in before && before[k] == n;
        assert after[k] == n;
      }
    }
  }

  /** Every graph name is one of the names handed out, and those are image0, image1, ...,
      distinct per key. */
  lemma {:induction false} ToDaskNamed(ts: seq<Tracked>, functions: CategoryWidget.Functions)
    ensures var r := ToDaskSpec(ts, functions);
      Numbered(r.names) && GraphNamed(r.graph, r.names)
    decreases |ts|
  {
    if ts != [] {
      var init := ToDaskSpec(ts[..|ts| - 1], functions);
      var t := ts[|ts| - 1];
      ToDaskNamed(ts[..|ts| - 1], functions);
      var s := Scan(init.graph, init.names, [], []);
      ScanAllFacts(s, t.widgets, t);
      ScanAllNumbered(s, t.widgets, t);
      var sc := ScanAll(s, t.widgets, t);
      IdToNameKeepsNumbered(OwnKey(t), sc.names);
      var names := IdToName(OwnKey(t), sc.names).1;
      GraphNamedStep(sc.graph, sc.names, names, OwnKey(t), EntryOf(t, sc, functions));
    }
  }

  // ---------------------------------------------------------------------------------------
  // The tracked layers

  /** The tracked layers have distinct identities (they are the keys of a dictionary). */
  predicate DistinctIds(ts: seq<Tracked>)
  {
    forall i, j :: 0 <= i < j < |ts| ==> ts[i].id != ts[j].id
  }

  /** The position of the tracked layer with identity `id`, if any. */
  function FindId(ts: seq<Tracked>, id: nat): (r: Option<nat>)
    ensures r.Some? ==> r.value < |ts| && ts[r.value].id == id
    ensures r.None? ==> forall i :: 0 <= i < |ts| ==> ts[i].id != id
  {
    if ts == [] then None
    else if ts[0].id == id then Some(0)
    else match FindId(ts[1..], id)
      case None => None
      case Some(i) => Some(i + 1)
  }

  /** `dict.pop` of a tracked key: its entry is cut out; an untracked key changes nothing. */
  function Without(ts: seq<Tracked>, id: nat): (r: seq<Tracked>)
  {
    match FindId(ts, id)
    case None => ts
    case Some(i) => ts[..i] + ts[i + 1..]
  }

  /** Removing a layer drops exactly its entry: every other tracked layer stays, in the same
      order, and the identities stay distinct. */
  lemma WithoutFacts(ts: seq<Tracked>, id: nat)
    requires DistinctIds(ts)
    ensures forall t :: t in Without(ts, id) <==> t in ts && t.id != id
    ensures DistinctIds(Without(ts, id))
    ensures |Without(ts, id)| == if FindId(ts, id).Some? then |ts| - 1 else |ts|
  {
    match FindId(ts, id)
    case None =>
    case Some(i) =>
      CutMembers(ts, i);
      CutDistinct(ts, i);
  }

  /** Cutting out position i keeps every other element, in order. */
  lemma CutIndex<T>(ts: seq<T>, i: nat)
    requires i < |ts|
    ensures var r := ts[..i] + ts[i + 1..];
      |r| == |ts| - 1 && forall j :: 0 <= j < |r| ==> r[j] == ts[Skip(j, i)]
  {
  }

  lemma CutMembers(ts: seq<Tracked>, i: nat)
    requires DistinctIds(ts) && i < |ts|
    ensures forall t :: t in ts[..i] + ts[i + 1..] <==> t in ts && t.id != ts[i].id
  {
    CutKept(ts, i);
    CutKeepsOthers(ts, i);
  }

  lemma CutKept(ts: seq<Tracked>, i: nat)
    requires DistinctIds(ts) && i < |ts|
    ensures forall t :: t in ts[..i] + ts[i + 1..] ==> t in ts && t.id != ts[i].id
  {
    var r := ts[..i] + ts[i + 1..];
    CutIndex(ts, i);
    forall t | t in r
      ensures t in ts && t.id != ts[i].id
    {
      var j :| 0 <= j < |r| && r[j] == t;
      assert ts[Skip(j, i)] == t;
      DistinctAt(ts, Skip(j, i), i);
    }
  }

  lemma CutKeepsOthers(ts: seq<Tracked>, i: nat)
    requires i < |ts|
    ensures forall t :: t in ts && t.id != ts[i].id ==> t in ts[..i] + ts[i + 1..]
  {
    var r := ts[..i] + ts[i + 1..];
    CutIndex(ts, i);
    forall t | t in ts && t.id != ts[i].id
      ensures t in r
    {
      var j :| 0 <= j < |ts| && ts[j] == t;
      assert r[if j < i then j else j - 1] == t;
    }
  }

  lemma CutDistinct(ts: seq<Tracked>, i: nat)
    requires DistinctIds(ts) && i < |ts|
    ensures DistinctIds(ts[..i] + ts[i + 1..])
  {
    var r := ts[..i] + ts[i + 1..];
    CutIndex(ts, i);
    forall a, b | 0 <= a < b < |r|
      ensures r[a].id != r[b].id
    {
      assert r[a] == ts[Skip(a, i)] && r[b] == ts[Skip(b, i)];
      DistinctAt(ts, Skip(a, i), Skip(b, i));
    }
  }

  lemma DistinctAt(ts: seq<Tracked>, a: nat, b: nat)
    requires DistinctIds(ts) && a < |ts| && b < |ts| && a != b
    ensures ts[a].id != ts[b].id
  {
    if b < a {
      assert ts[b].id != ts[a].id;
    }
  }

  /** The position in the original sequence of position j once position i is cut out. */
  function Skip(j: nat, i: nat): (k: nat)
    ensures j < k <==> i <= j
  {
    if j < i then j else j + 1
  }

  /** Where a dictionary assignment puts a new value: in place for a known key, at the end
      for a new one. */
  function Put(ts: seq<Tracked>, t: Tracked): (r: seq<Tracked>)
  {
    if ts == [] then [t]
    else if ts[0].id == t.id then [t] + ts[1..]
    else [ts[0]] + Put(ts[1..], t)
  }

  lemma PutFacts(ts: seq<Tracked>, t: Tracked)
    requires DistinctIds(ts)
    ensures DistinctIds(Put(ts, t))
    ensures t in Put(ts, t)
    ensures forall u :: u in Put(ts, t) ==> u == t || (u in ts && u.id != t.id)
    ensures |Put(ts, t)| == if exists i :: 0 <= i < |ts| && ts[i].id == t.id then |ts| else |ts| + 1
  {
    PutDistinct(ts, t);
    PutMembers(ts, t);
    PutLength(ts, t);
  }

  /** The tail of distinct identities is distinct and lacks the head's identity. */
  lemma TailDistinct(ts: seq<Tracked>)
    requires DistinctIds(ts) && ts != []
    ensures DistinctIds(ts[1..])
    ensures forall u :: u in ts[1..] ==> u.id != ts[0].id
  {
    var rest := ts[1..];
    forall i, j | 0 <= i < j < |rest|
      ensures rest[i].id != rest[j].id
    {
      assert rest[i] == ts[i + 1] && rest[j] == ts[j + 1];
    }
    forall u | u in rest
      ensures u.id != ts[0].id
    {
      var j :| 0 <= j < |rest| && rest[j] == u;
      assert ts[j + 1] == u;
    }
  }

  lemma {:induction false} PutMembers(ts: seq<Tracked>, t: Tracked)
    requires DistinctIds(ts)
    ensures t in Put(ts, t)
    ensures forall u :: u in Put(ts, t) ==> u == t || (u in ts && u.id != t.id)
    decreases |ts|
  {
    if ts != [] {
      TailDistinct(ts);
      PutMembers(ts[1..], t);
      if ts[0].id != t.id {
        assert Put(ts, t) == [ts[0]] + Put(ts[1..], t);
      }
    }
  }

  lemma {:induction false} PutDistinct(ts: seq<Tracked>, t: Tracked)
    requires DistinctIds(ts)
    ensures DistinctIds(Put(ts, t))
    decreases |ts|
  {
    if ts != [] {
      var rest := ts[1..];
      TailDistinct(ts);
      if ts[0].id == t.id {
        var r := [t] + rest;
        forall i, j | 0 <= i < j < |r|
          ensures r[i].id != r[j].id
        {
          assert r[j] == rest[j - 1];
          if i > 0 {
            assert r[i] == rest[i - 1];
          }
        }
      } else {
        PutDistinct(rest, t);
        PutMembers(rest, t);
        var p := Put(rest, t);
        var r := [ts[0]] + p;
        forall i, j | 0 <= i < j < |r|
          ensures r[i].id != r[j].id
        {
          assert r[j] == p[j - 1] && r[j] in p;
          if i > 0 {
            assert r[i] == p[i - 1];
          }
        }
      }
    }
  }

  lemma {:induction false} PutLength(ts: seq<Tracked>, t: Tracked)
    ensures |Put(ts, t)| == if exists i :: 0 <= i < |ts| && ts[i].id == t.id then |ts| else |ts| + 1
    decreases |ts|
  {
    if ts != [] && ts[0].id != t.id {
      var rest := ts[1..];
      PutLength(rest, t);
      if exists i :: 0 <= i < |ts| && ts[i].id == t.id {
        var i :| 0 <= i < |ts| && ts[i].id == t.id;
        assert rest[i - 1].id == t.id;
      }
      if exists i :: 0 <= i < |rest| && rest[i].id == t.id {
        var i :| 0 <= i < |rest| && rest[i].id == t.id;
        assert ts[i + 1].id == t.id;
      }
    }
  }

  /** The assistant: its tracked layers (the `_layers` dictionary, in insertion order). */
  class Assistant {
    var layers: seq<Tracked>

    predicate Valid()
      reads this
    {
      DistinctIds(layers)
    }

    constructor ()
      ensures Valid() && layers == []
    {
      layers := [];
    }

    /** `_activate` tracking a new result layer with its dialog. */
    method Track(t: Tracked)
      requires Valid()
      modifies this
      ensures Valid() && layers == Put(old(layers), t)
    {
      PutFacts(layers, t);
      layers := Put(layers, t);
    }

    /** `_on_layer_removed`, on the tracked layers: pop the removed layer if it is tracked. */
    method OnLayerRemoved(id: nat)
      requires Valid()
      modifies this
      ensures Valid() && layers == Without(old(layers), id)
    {
      WithoutFacts(layers, id);
      var i := 0;
      while i < |layers|
        invariant 0 <= i <= |layers|
        invariant forall j :: 0 <= j < i ==> layers[j].id != id
      {
        if layers[i].id == id {
          assert FindId(layers, id) == Some(i) by { FindIdFirst(layers, id, i); }
          layers := layers[..i] + layers[i + 1..];
          return;
        }
        i := i + 1;
      }
    }

    /** `to_dask`: the graph built from the tracked layers in order. */
    method ToDask(functions: CategoryWidget.Functions) returns (graph: map<string, Entry>)
      ensures graph == ToDaskSpec(layers, functions).graph
    {
      graph := map[];
      var names: map<Key, string> := map[];
      var n := 0;
      while n < |layers|
        invariant 0 <= n <= |layers|
        invariant Graph(graph, names) == ToDaskSpec(layers[..n], functions)
      {
        var t := layers[n];
        assert layers[..n + 1][..n] == layers[..n];
        var sc := ScanDialog(Scan(graph, names, [], []), t);
        var entry := EntryOf(t, sc, functions);
        var name: string;
        name, names := IdToName(OwnKey(t), sc.names).0, IdToName(OwnKey(t), sc.names).1;
        graph := sc.graph[name := entry];
        n := n + 1;
      }
      assert layers[..n] == layers;
    }
  }

  lemma FindIdFirst(ts: seq<Tracked>, id: nat, i: nat)
    requires i < |ts| && ts[i].id == id
    requires forall j :: 0 <= j < i ==> ts[j].id != id
    ensures FindId(ts, id) == Some(i)
  {
    if i > 0 {
      FindIdFirst(ts[1..], id, i - 1);
    }
  }

  /** The widget loop of `to_dask` over one dialog. */
  method ScanDialog(s: Scan, t: Tracked) returns (r: Scan)
    ensures r == ScanAll(s, t.widgets, t)
  {
    r := s;
    var j := 0;
    while j < |t.widgets|
      invariant 0 <= j <= |t.widgets|
      invariant r == ScanAll(s, t.widgets[..j], t)
    {
      var w := t.widgets[j];
      assert t.widgets[..j + 1][..j] == t.widgets[..j];
      if Considered(w) {
        match w.value {
          case LayerRef(l) =>
            var key := RandomKey;
            if l.opId.Some? {
              key := OpKey(l.opId.value);
            } else {
              var readName: string;
              readName, r := IdToName(RandomKey, r.names).0, r.(names := IdToName(RandomKey, r.names).1);
              r := r.(graph := r.graph[readName := ReadEntry(l, t)]);
            }
            var name: string;
            name, r := IdToName(key, r.names).0, r.(names := IdToName(key, r.names).1);
            r := r.(inputs := r.inputs + [name]);
          case Str(_) =>
            r := r.(args := r.args + [w.value]);
          case Num(_) =>
            r := r.(args := r.args + [w.value]);
        }
      }
      j := j + 1;
    }
    assert t.widgets[..j] == t.widgets;
  }
}
