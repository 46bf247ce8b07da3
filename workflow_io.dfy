/** Reloading a saved workflow into the viewer: which steps read a root image, which
    keyword of a step receives which source, the keyword defaults a step's widget gets, the
    choices offered for an input, and the worklist that opens one widget per step once its
    inputs exist as layers. The workflow object is abstract: its tasks, roots, and its
    `sources_of` and `followers_of` answers are given. */
module WorkflowIO {
  import opened Wrappers
  import opened Strings
  import opened Dicts

  /** A task entry after the function: a string (a step or image name, or a text value) or
      any other value, printed. */
  datatype TaskArg = Str(s: string) | Other(text: string)

  /** A workflow task: the parameter names of its function, the entries after the function,
      and whether the function is annotated to return image or labels data. */
  datatype Task = Task(params: seq<string>, args: seq<TaskArg>, returnsLayer: bool)

  datatype Workflow = Workflow(
    tasks: Dict<Task>,
    roots: seq<string>,
    sourcesOf: string -> seq<string>,
    followersOf: string -> seq<string>)

  // ---------------------------------------------------------------------------------------
  // Widget names

  /** `name[10:]`. */
  function Drop10(s: string): (r: string)
    ensures |s| <= 10 ==> r == ""
    ensures |s| > 10 ==> s == s[..10] + r
  {
    if |s| <= 10 then "" else s[10..]
  }

  /** The name of the layer a step's widget creates. */
  function ResultLayerName(step: string): string
  {
    "Result of " + Drop10(step)
  }

  /** Widget names drop the ten characters of "Result of ", so a step named
      "Result of <op>" gets a widget named <op>, and its result layer gets the step's own
      name back. */
  lemma WidgetNameDropsPrefix(op: string)
    ensures Drop10("Result of " + op) == op
    ensures ResultLayerName("Result of " + op) == "Result of " + op
  {
    var s := "Result of " + op;
    if |op| > 0 {
      assert s[10..] == op;
    } else {
      assert |s| == 10;
    }
  }

  // ---------------------------------------------------------------------------------------
  // wf_steps_with_root_as_input

  predicate IsRoot(a: TaskArg, roots: seq<string>)
  {
    a.Str? && a.s in roots
  }

  /** The number of task entries that are root names. */
  function RootCount(args: seq<TaskArg>, roots: seq<string>): nat
  {
    if args == [] then 0
    else RootCount(args[..|args| - 1], roots) + (if IsRoot(args[|args| - 1], roots) then 1 else 0)
  }

  function Repeat(x: string, n: nat): (r: seq<string>)
    ensures |r| == n && forall i :: 0 <= i < n ==> r[i] == x
  {
    seq(n, _ => x)
  }

  /** Each step, once per entry that is a root name, in task order. */
  function RootSteps(tasks: Dict<Task>, roots: seq<string>): seq<string>
  {
    if tasks == [] then []
    else
      var last := tasks[|tasks| - 1];
      RootSteps(tasks[..|tasks| - 1], roots) + Repeat(last.0, RootCount(last.1.args, roots))
  }

  /** `wf_steps_with_root_as_input`: the loop over tasks and their entries. */
  method WfStepsWithRootAsInput(wf: Workflow) returns (steps: seq<string>)
    ensures steps == RootSteps(wf.tasks, wf.roots)
  {
    steps := [];
    for t := 0 to |wf.tasks|
      invariant steps == RootSteps(wf.tasks[..t], wf.roots)
    {
      assert wf.tasks[..t + 1][..t] == wf.tasks[..t];
      var result := wf.tasks[t].0;
      var task := wf.tasks[t].1;
      ghost var before := steps;
      // the function, first entry of a dask tuple, is never a string
      for a := 0 to |task.args|
        invariant steps == before + Repeat(result, RootCount(task.args[..a], wf.roots))
      {
        assert task.args[..a + 1][..a] == task.args[..a];
        var source := task.args[a];
        if source.Str? {
          if source.s in wf.roots {
            steps := steps + [result];
          }
        }
      }
      assert task.args[..|task.args|] == task.args;
    }
    assert wf.tasks[..|wf.tasks|] == wf.tasks;
  }

  lemma {:induction false} RootCountPositive(args: seq<TaskArg>, roots: seq<string>)
    ensures RootCount(args, roots) > 0 <==> exists j :: 0 <= j < |args| && IsRoot(args[j], roots)
    decreases |args|
  {
    if args != [] {
      var init := args[..|args| - 1];
      RootCountPositive(init, roots);
      if exists j :: 0 <= j < |init| && IsRoot(init[j], roots) {
        var j :| 0 <= j < |init| && IsRoot(init[j], roots);
        assert args[j] == init[j];
      }
      if exists j :: 0 <= j < |args| && IsRoot(args[j], roots) {
        var j :| 0 <= j < |args| && IsRoot(args[j], roots);
        if j < |init| {
          assert init[j] == args[j];
        }
      }
    }
  }

  /** A step is listed exactly when one of its entries is a root name. */
  lemma {:induction false} RootStepsMembers(tasks: Dict<Task>, roots: seq<string>, x: string)
    ensures x in RootSteps(tasks, roots) <==>
      exists i, j :: 0 <= i < |tasks| && tasks[i].0 == x && 0 <= j < |tasks[i].1.args| && IsRoot(tasks[i].1.args[j], roots)
    decreases |tasks|
  {
    if tasks != [] {
      var init := tasks[..|tasks| - 1];
      var last := tasks[|tasks| - 1];
      var c := RootCount(last.1.args, roots);
      assert RootSteps(tasks, roots) == RootSteps(init, roots) + Repeat(last.0, c);
      RootStepsMembers(init, roots, x);
      RootCountPositive(last.1.args, roots);
      if c > 0 {
        assert Repeat(last.0, c)[0] == last.0;
      }
      if x == last.0 && c > 0 {
        var j :| 0 <= j < |last.1.args| && IsRoot(last.1.args[j], roots);
        assert tasks[|tasks| - 1].0 == x && IsRoot(tasks[|tasks| - 1].1.args[j], roots);
      }
      if exists i, j :: 0 <= i < |tasks| && tasks[i].0 == x && 0 <= j < |tasks[i].1.args| && IsRoot(tasks[i].1.args[j], roots) {
        var i, j :| 0 <= i < |tasks| && tasks[i].0 == x && 0 <= j < |tasks[i].1.args| && IsRoot(tasks[i].1.args[j], roots);
        if i < |init| {
          assert init[i] == tasks[i];
        }
      }
      if exists i, j :: 0 <= i < |init| && init[i].0 == x && 0 <= j < |init[i].1.args| && IsRoot(init[i].1.args[j], roots) {
        var i, j :| 0 <= i < |init| && init[i].0 == x && 0 <= j < |init[i].1.args| && IsRoot(init[i].1.args[j], roots);
        assert tasks[i] == init[i];
      }
    }
  }

  /** A step reading the same root twice is listed twice. */
  lemma RootStepListedPerEntry()
    ensures RootSteps([("b", Task(["x", "y"], [Str("a"), Str("a")], true))], ["a"]) == ["b", "b"]
  {
    var args := [Str("a"), Str("a")];
    assert args[..1][..0] == [];
    assert RootCount(args[..1], ["a"]) == 1;
    assert RootCount(args, ["a"]) == 2;
    var tasks := [("b", Task(["x", "y"], args, true))];
    assert tasks[..0] == [];
  }

  // ---------------------------------------------------------------------------------------
  // get_source_keywords_and_sources, set_choices

  /** `[(key, value) for key, value in zip(params, args) if value in sources]`. */
  function SourceKeywords(params: seq<string>, args: seq<TaskArg>, sources: seq<string>): seq<(string, string)>
    decreases |params|
  {
    if params == [] || args == [] then []
    else
      (if args[0].Str? && args[0].s in sources then [(params[0], args[0].s)] else [])
      + SourceKeywords(params[1..], args[1..], sources)
  }

  /** A pair is listed exactly when the keyword and the source sit at the same position and
      the value is one of the step's sources. */
  lemma {:induction false} SourceKeywordsMembers(params: seq<string>, args: seq<TaskArg>, sources: seq<string>, k: string, v: string)
    ensures (k, v) in SourceKeywords(params, args, sources) <==>
      exists i :: 0 <= i < |params| && i < |args| && params[i] == k && args[i] == Str(v) && v in sources
    decreases |params|
  {
    if params != [] && args != [] {
      SourceKeywordsMembers(params[1..], args[1..], sources, k, v);
      if exists i :: 0 <= i < |params| && i < |args| && params[i] == k && args[i] == Str(v) && v in sources {
        var i :| 0 <= i < |params| && i < |args| && params[i] == k && args[i] == Str(v) && v in sources;
        if i > 0 {
          assert params[1..][i - 1] == k && args[1..][i - 1] == Str(v);
        }
      }
      if exists i :: 0 <= i < |params[1..]| && i < |args[1..]| && params[1..][i] == k && args[1..][i] == Str(v) && v in sources {
        var i :| 0 <= i < |params[1..]| && i < |args[1..]| && params[1..][i] == k && args[1..][i] == Str(v) && v in sources;
        assert params[i + 1] == k && args[i + 1] == Str(v);
      }
    }
  }

  /** `get_source_keywords_and_sources`; None when the step is not a task (a KeyError). */
  function GetSourceKeywordsAndSources(wf: Workflow, step: string): (r: Option<seq<(string, string)>>)
    ensures r.None? <==> step !in Keys(wf.tasks)
  {
    match Get(wf.tasks, step)
    case None => None
    case Some(task) => Some(SourceKeywords(task.params, task.args, wf.sourcesOf(step)))
  }

  // ---------------------------------------------------------------------------------------
  // signature_w_kwargs_from_function

  /** `zip(params, args)`. */
  function Zip(params: seq<string>, args: seq<TaskArg>): (r: Dict<TaskArg>)
    ensures |r| == if |params| < |args| then |params| else |args|
    ensures forall i :: 0 <= i < |r| ==> r[i] == (params[i], args[i])
  {
    var n := if |params| < |args| then |params| else |args|;
    seq(n, i requires 0 <= i < n => (params[i], args[i]))
  }

  /** An entry the widget must not preset: its value names an input image and its key is
      not 'viewer'. */
  predicate Popped(item: (string, TaskArg), sources: seq<string>)
  {
    item.1.Str? && item.1.s in sources && item.0 != "viewer"
  }

  /** The entries of d that are not popped, in order. */
  function Unpopped(d: Dict<TaskArg>, sources: seq<string>): Dict<TaskArg>
  {
    if d == [] then []
    else Unpopped(d[..|d| - 1], sources) + (if Popped(d[|d| - 1], sources) then [] else [d[|d| - 1]])
  }

  /** The keyword defaults the widget of a task gets. */
  function KwargsSpec(task: Task, sources: seq<string>): Dict<TaskArg>
  {
    Unpopped(PutAll([], Zip(task.params, task.args)), sources)
  }

  lemma {:induction false} UnpoppedMembers(d: Dict<TaskArg>, sources: seq<string>, p: (string, TaskArg))
    ensures p in Unpopped(d, sources) <==> p in d && !Popped(p, sources)
    decreases |d|
  {
    if d != [] {
      UnpoppedMembers(d[..|d| - 1], sources, p);
      assert d == d[..|d| - 1] + [d[|d| - 1]];
    }
  }

  /** In a dictionary with distinct keys, the key at position j occurs neither among the
      kept entries before j nor after j. */
  lemma KeyOnlyAt(d: Dict<TaskArg>, j: nat, sources: seq<string>)
    requires DistinctKeys(d) && j < |d|
    ensures d[j].0 !in Keys(Unpopped(d[..j], sources)) && d[j].0 !in Keys(d[j + 1..])
  {
    var k := d[j].0;
    var kept := Unpopped(d[..j], sources);
    assert k !in Keys(kept) by {
      forall p | p in kept ensures p.0 != k {
        UnpoppedMembers(d[..j], sources, p);
        var a :| 0 <= a < j && d[..j][a] == p;
      }
    }
    var rest := d[j + 1..];
    assert k !in Keys(rest) by {
      forall a | 0 <= a < |rest| ensures rest[a].0 != k {
        assert rest[a] == d[j + 1 + a];
      }
    }
  }

  /** One pop of the second loop: in a dictionary with distinct keys, the key at position j
      reads its own value, and popping it exactly when its entry is popped extends the
      kept prefix by one. */
  lemma PopStep(d: Dict<TaskArg>, j: nat, sources: seq<string>)
    requires DistinctKeys(d) && j < |d|
    ensures var kw := Unpopped(d[..j], sources) + d[j..];
      && Get(kw, d[j].0) == Some(d[j].1)
      && (if Popped(d[j], sources) then Remove(kw, d[j].0) else kw) == Unpopped(d[..j + 1], sources) + d[j + 1..]
  {
    var x := d[j];
    var kept := Unpopped(d[..j], sources);
    var rest := d[j + 1..];
    KeyOnlyAt(d, j, sources);
    DropCons(d, j);
    UnpoppedSnoc(d, j, sources);
    PopOrKeep(kept, x, rest, Popped(x, sources));
  }

  /** The dictionary `kept + [x] + rest` with x's key nowhere else: x's key reads x's
      value, and popping it leaves the rest in order. */
  lemma PopOrKeep(kept: Dict<TaskArg>, x: (string, TaskArg), rest: Dict<TaskArg>, popped: bool)
    requires x.0 !in Keys(kept) && x.0 !in Keys(rest)
    ensures var kw := kept + ([x] + rest);
      && Get(kw, x.0) == Some(x.1)
      && (if popped then Remove(kw, x.0) else kw) == (kept + (if popped then [] else [x])) + rest
  {
    PopAt(kept, x, rest);
    if popped {
      assert kept + [] == kept;
    } else {
      assert kept + ([x] + rest) == (kept + [x]) + rest;
    }
  }

  lemma UnpoppedSnoc(d: Dict<TaskArg>, j: nat, sources: seq<string>)
    requires j < |d|
    ensures Unpopped(d[..j + 1], sources) == Unpopped(d[..j], sources) + (if Popped(d[j], sources) then [] else [d[j]])
  {
    assert d[..j + 1][..j] == d[..j];
  }

  /** Reading and removing the key of an item that sits between two parts lacking it. */
  lemma PopAt(kept: Dict<TaskArg>, x: (string, TaskArg), rest: Dict<TaskArg>)
    requires x.0 !in Keys(kept) && x.0 !in Keys(rest)
    ensures Get(kept + ([x] + rest), x.0) == Some(x.1)
    ensures Remove(kept + ([x] + rest), x.0) == kept + rest
  {
    GetConcat(kept, [x] + rest, x.0);
    RemoveBetween(kept, x, rest);
  }

  lemma RemoveBetween(kept: Dict<TaskArg>, x: (string, TaskArg), rest: Dict<TaskArg>)
    requires x.0 !in Keys(kept) && x.0 !in Keys(rest)
    ensures Remove(kept + ([x] + rest), x.0) == kept + rest
  {
    var k := x.0;
    RemoveConcat(kept, [x] + rest, k);
    RemoveConcat([x], rest, k);
    RemoveAbsent(kept, k);
    RemoveAbsent(rest, k);
    calc {
      Remove(kept + ([x] + rest), k);
      Remove(kept, k) + Remove([x] + rest, k);
      kept + (Remove([x], k) + Remove(rest, k));
      { assert Remove([x], k) == []; }
      kept + ([] + rest);
      { assert [] + rest == rest; }
      kept + rest;
    }
  }

  /** `signature_w_kwargs_from_function`, up to the signature it builds from the remaining
      keyword values; None when the step is not a task. */
  method SignatureKwargs(wf: Workflow, step: string) returns (kw: Option<Dict<TaskArg>>)
    ensures kw == match Get(wf.tasks, step)
      case None => None
      case Some(task) => Some(KwargsSpec(task, wf.sourcesOf(step)))
  {
    var found := Get(wf.tasks, step);
    if found.None? {
      return None;
    }
    var task := found.value;
    var kwDict := ZipToDict(Zip(task.params, task.args));
    kwDict := PopInputs(kwDict, wf.sourcesOf(step));
    return Some(kwDict);
  }

  /** The first loop: `kw_dict[kw] = val` for each pair. */
  method ZipToDict(pairs: Dict<TaskArg>) returns (kwDict: Dict<TaskArg>)
    ensures kwDict == PutAll([], pairs) && DistinctKeys(kwDict)
  {
    kwDict := [];
    for i := 0 to |pairs|
      invariant kwDict == PutAll([], pairs[..i])
    {
      assert pairs[..i + 1][..i] == pairs[..i];
      kwDict := Put(kwDict, pairs[i].0, pairs[i].1);
    }
    assert pairs[..|pairs|] == pairs;
    PutAllDistinct([], pairs);
  }

  /** The second loop: over a copy of the keys, pop each entry whose value is an input
      image name, unless its key is 'viewer'. */
  method PopInputs(d: Dict<TaskArg>, inputImageNames: seq<string>) returns (kwDict: Dict<TaskArg>)
    requires DistinctKeys(d)
    ensures kwDict == Unpopped(d, inputImageNames)
  {
    kwDict := d;
    var dictKeys := Keys(kwDict);
    for j := 0 to |dictKeys|
      invariant kwDict == Unpopped(d[..j], inputImageNames) + d[j..]
    {
      var name := dictKeys[j];
      PopStep(d, j, inputImageNames);
      var value := Get(kwDict, name).value;
      if value.Str? && value.s in inputImageNames && name != "viewer" {
        kwDict := Remove(kwDict, name);
      }
    }
    assert d[..|dictKeys|] == d;
  }

  /** Parameter names of a Python function are distinct. */
  predicate DistinctParams(params: seq<string>)
  {
    forall a, b :: 0 <= a < b < |params| ==> params[a] != params[b]
  }

  /** The widget presets a keyword with its task value exactly when the keyword and value
      sit at the same position and the value is not an input image name, or the keyword is
      'viewer'. */
  lemma KwargsMembers(task: Task, sources: seq<string>, k: string, v: TaskArg)
    requires DistinctParams(task.params)
    ensures (k, v) in KwargsSpec(task, sources) <==>
      (exists i :: 0 <= i < |task.params| && i < |task.args| && task.params[i] == k && task.args[i] == v)
      && !(v.Str? && v.s in sources && k != "viewer")
  {
    var z := Zip(task.params, task.args);
    assert KwargsSpec(task, sources) == Unpopped(z, sources) by {
      ZipDistinct(task.params, task.args);
      assert [] + z == z;
      assert DistinctKeys([] + z);
      PutAllFresh([], z);
    }
    UnpoppedMembers(z, sources, (k, v));
    ZipMembers(task.params, task.args, k, v);
  }

  /** Distinct parameter names give a zip with distinct keys. */
  lemma ZipDistinct(params: seq<string>, args: seq<TaskArg>)
    requires DistinctParams(params)
    ensures DistinctKeys(Zip(params, args))
  {
    var z := Zip(params, args);
    forall a, b | 0 <= a < b < |z| ensures z[a].0 != z[b].0 {
      assert z[a].0 == params[a] && z[b].0 == params[b];
    }
  }

  /** An item of the zip pairs a parameter and an argument at the same position. */
  lemma ZipMembers(params: seq<string>, args: seq<TaskArg>, k: string, v: TaskArg)
    ensures (k, v) in Zip(params, args) <==>
      exists i :: 0 <= i < |params| && i < |args| && params[i] == k && args[i] == v
  {
    var z := Zip(params, args);
    if (k, v) in z {
      var i :| 0 <= i < |z| && z[i] == (k, v);
    }
    if exists i :: 0 <= i < |params| && i < |args| && params[i] == k && args[i] == v {
      var i :| 0 <= i < |params| && i < |args| && params[i] == k && args[i] == v;
      assert z[i] == (k, v);
    }
  }

  // ---------------------------------------------------------------------------------------
  // get_layers_data_of_name

  /** A viewer layer: `str(layer)` is its name. */
  datatype ViewerLayer = ViewerLayer(name: string, data: nat)

  /** `get_layers_data_of_name`: one choice "<name> (data)" per layer of that name, with its
      data, in layer order. */
  function LayerChoices(layerName: string, layers: seq<ViewerLayer>): seq<(string, nat)>
  {
    if layers == [] then []
    else
      (if layers[0].name == layerName then [(layers[0].name + " (data)", layers[0].data)] else [])
      + LayerChoices(layerName, layers[1..])
  }

  /** A choice is offered exactly for the data of each layer of that name, always under the
      key "<name> (data)". */
  lemma {:induction false} LayerChoicesMembers(layerName: string, layers: seq<ViewerLayer>, key: string, data: nat)
    ensures (key, data) in LayerChoices(layerName, layers) <==>
      key == layerName + " (data)" && exists i :: 0 <= i < |layers| && layers[i] == ViewerLayer(layerName, data)
    decreases |layers|
  {
    if layers != [] {
      LayerChoicesMembers(layerName, layers[1..], key, data);
      if exists i :: 0 <= i < |layers| && layers[i] == ViewerLayer(layerName, data) {
        var i :| 0 <= i < |layers| && layers[i] == ViewerLayer(layerName, data);
        if i > 0 {
          assert layers[1..][i - 1] == layers[i];
        }
      }
      if exists i :: 0 <= i < |layers[1..]| && layers[1..][i] == ViewerLayer(layerName, data) {
        var i :| 0 <= i < |layers[1..]| && layers[1..][i] == ViewerLayer(layerName, data);
        assert layers[i + 1] == layers[1..][i];
      }
    }
  }

  // ---------------------------------------------------------------------------------------
  // load_remaining_workflow

  /** A dock widget shown for a step: its name, whether it calls itself on every change,
      and the keyword defaults of its signature. */
  datatype Dock = Dock(name: string, autocall: bool, defaults: Dict<TaskArg>)

  /** The state of the worklist: the queue of followers, the position reached, the names of
      the viewer's layers, and the docks shown so far. */
  datatype Loading = Loading(followers: seq<string>, next: nat, layers: seq<string>, docks: seq<Dock>)

  /** How loading ends: the queue is exhausted, the iteration bound is reached, or a queued
      step is no task of the workflow and the lookup raises. */
  datatype LoadResult = Finished(state: Loading) | OutOfFuel(state: Loading) | Raised(state: Loading)

  predicate AllIn(xs: seq<string>, ys: seq<string>)
  {
    forall x :: x in xs ==> x in ys
  }

  /** Appending a follower unless it is already queued after position i. */
  function Requeue(fs: seq<string>, i: nat, f: string): seq<string>
    requires i < |fs|
  {
    if f in fs[i + 1..] then fs else fs + [f]
  }

  /** The inner loop over new followers, each checked against the queue as it has grown. */
  function Enqueue(fs: seq<string>, i: nat, news: seq<string>): (r: seq<string>)
    requires i < |fs|
    ensures |fs| <= |r| && r[..|fs|] == fs
  {
    if news == [] then fs
    else
      var before := Enqueue(fs, i, news[..|news| - 1]);
      Requeue(before, i, news[|news| - 1])
  }

  /** The followers of the root steps, in order. */
  function FollowersOfAll(wf: Workflow, steps: seq<string>): seq<string>
  {
    if steps == [] then []
    else FollowersOfAll(wf, steps[..|steps| - 1]) + wf.followersOf(steps[|steps| - 1])
  }

  /** One iteration of the worklist loop at the follower in position `next`: a follower
      with a source that is no layer yet is deferred; otherwise its dock is shown (with
      autocall only for at most one source), its widget is called, adding its result layer
      when the function returns image or labels data, and its followers are queued. None
      when the follower is no task. */
  function Step(wf: Workflow, st: Loading): Option<Loading>
    requires st.next < |st.followers|
  {
    var f := st.followers[st.next];
    var sources := wf.sourcesOf(f);
    if !AllIn(sources, st.layers) then
      Some(st.(followers := Requeue(st.followers, st.next, f), next := st.next + 1))
    else
      match Get(wf.tasks, f)
      case None => None
      case Some(task) =>
        var dock := Dock(Drop10(f), |sources| <= 1, KwargsSpec(task, sources));
        var layers := if task.returnsLayer then st.layers + [ResultLayerName(f)] else st.layers;
        Some(Loading(Enqueue(st.followers, st.next, wf.followersOf(f)), st.next + 1, layers, st.docks + [dock]))
  }

  /** The worklist loop, bounded by `fuel` iterations. */
  function Run(wf: Workflow, st: Loading, fuel: nat): LoadResult
    decreases fuel, 1
  {
    if |st.followers| <= st.next then Finished(st)
    else if fuel == 0 then OutOfFuel(st)
    else Advance(wf, st, fuel)
  }

  /** An iteration of the bounded loop at a position inside the queue, with fuel left. */
  function Advance(wf: Workflow, st: Loading, fuel: nat): LoadResult
    requires st.next < |st.followers| && 0 < fuel
    decreases fuel, 0
  {
    match Step(wf, st)
    case None => Raised(st)
    case Some(st') => Run(wf, st', fuel - 1)
  }

  /** Loading from the given layer names: the queue starts with the followers of the root
      steps. */
  function LoadSpec(wf: Workflow, layers: seq<string>, fuel: nat): LoadResult
  {
    Run(wf, Loading(FollowersOfAll(wf, RootSteps(wf.tasks, wf.roots)), 0, layers, []), fuel)
  }

  /** The check that every source is among the layer names. */
  method SourcesPresent(sources: seq<string>, layerNames: seq<string>) returns (present: bool)
    ensures present <==> AllIn(sources, layerNames)
  {
    present := true;
    for k := 0 to |sources|
      invariant present <==> forall m :: 0 <= m < k ==> sources[m] in layerNames
    {
      if sources[k] !in layerNames {
        present := false;
      }
    }
  }

  /** The loop appending the new followers of the step at position i. */
  method EnqueueFollowers(followers: seq<string>, i: nat, newFollowers: seq<string>) returns (queue: seq<string>)
    requires i < |followers|
    ensures queue == Enqueue(followers, i, newFollowers)
  {
    queue := followers;
    for n := 0 to |newFollowers|
      invariant queue == Enqueue(followers, i, newFollowers[..n])
    {
      assert newFollowers[..n + 1][..n] == newFollowers[..n];
      var newFollower := newFollowers[n];
      if newFollower !in queue[i + 1..] {
        queue := queue + [newFollower];
      }
    }
    assert newFollowers[..|newFollowers|] == newFollowers;
  }

  lemma RunUnfold(wf: Workflow, st: Loading, fuel: nat)
    requires st.next < |st.followers| && 0 < fuel
    ensures Step(wf, st).None? ==> Run(wf, st, fuel) == Raised(st)
    ensures Step(wf, st).Some? ==> Run(wf, st, fuel) == Run(wf, Step(wf, st).value, fuel - 1)
  {
    assert Run(wf, st, fuel) == Advance(wf, st, fuel);
  }

  /** The followers of the root steps, gathered by the first loop. */
  method CollectFollowers(wf: Workflow, rootFunctions: seq<string>) returns (followers: seq<string>)
    ensures followers == FollowersOfAll(wf, rootFunctions)
  {
    followers := [];
    for r := 0 to |rootFunctions|
      invariant followers == FollowersOfAll(wf, rootFunctions[..r])
    {
      assert rootFunctions[..r + 1][..r] == rootFunctions[..r];
      followers := followers + wf.followersOf(rootFunctions[r]);
    }
    assert rootFunctions[..|rootFunctions|] == rootFunctions;
  }

  /** The body of the worklist loop for the follower at position i; `raised` when the
      follower is no task. */
  method ProcessFollower(wf: Workflow, followers: seq<string>, i: nat, layerNames: seq<string>, docks: seq<Dock>)
    returns (raised: bool, queue: seq<string>, names: seq<string>, shown: seq<Dock>)
    requires i < |followers|
    ensures raised <==> Step(wf, Loading(followers, i, layerNames, docks)).None?
    ensures raised ==> queue == followers && names == layerNames && shown == docks
    ensures !raised ==> Step(wf, Loading(followers, i, layerNames, docks)) == Some(Loading(queue, i + 1, names, shown))
  {
    queue, names, shown := followers, layerNames, docks;
    var follower := followers[i];
    var sources := wf.sourcesOf(follower);
    var present := SourcesPresent(sources, layerNames);
    if !present {
      if follower !in followers[i + 1..] {
        queue := followers + [follower];
      }
      return false, queue, names, shown;
    }
    var kw := SignatureKwargs(wf, follower);
    var task := Get(wf.tasks, follower);
    if kw.None? || task.None? {
      return true, queue, names, shown;
    }
    shown := docks + [Dock(Drop10(follower), |sources| <= 1, kw.value)];
    if task.value.returnsLayer {
      names := layerNames + [ResultLayerName(follower)];
    }
    queue := EnqueueFollowers(followers, i, wf.followersOf(follower));
    raised := false;
  }

  /** One iteration of the worklist loop, stated against the bounded loop: a raising
      iteration ends it, any other leaves it to run on from the new state with one
      iteration less. */
  method LoadIteration(wf: Workflow, st: Loading, fuel: nat) returns (raised: bool, after: Loading)
    requires st.next < |st.followers| && 0 < fuel
    ensures raised ==> Run(wf, st, fuel) == Raised(after)
    ensures !raised ==> Run(wf, st, fuel) == Run(wf, after, fuel - 1)
  {
    var queue, names, shown;
    raised, queue, names, shown := ProcessFollower(wf, st.followers, st.next, st.layers, st.docks);
    after := Loading(queue, if raised then st.next else st.next + 1, names, shown);
    assert st == Loading(st.followers, st.next, st.layers, st.docks);
    RunUnfold(wf, st, fuel);
  }

  /** The bounded loop stops on its own once the queue is exhausted or no iteration is
      left. */
  lemma RunStops(wf: Workflow, st: Loading, fuel: nat)
    requires |st.followers| <= st.next || fuel == 0
    ensures |st.followers| <= st.next ==> Run(wf, st, fuel) == Finished(st)
    ensures st.next < |st.followers| ==> Run(wf, st, fuel) == OutOfFuel(st)
  {
  }

  /** The iterations of the worklist loop over the growing `followers` list, for at most
      `fuel` of them; `raised` when an iteration raised, and the loop then ends with the
      state it left. */
  method Iterate(wf: Workflow, queued: seq<string>, layers: seq<string>, fuel: nat)
    returns (raised: bool, st: Loading, fuelLeft: nat)
    ensures raised ==> Run(wf, Loading(queued, 0, layers, []), fuel) == Raised(st)
    ensures !raised ==> Run(wf, Loading(queued, 0, layers, []), fuel) == Run(wf, st, fuelLeft)
    ensures !raised ==> |st.followers| <= st.next || fuelLeft == 0
  {
    ghost var target := Run(wf, Loading(queued, 0, layers, []), fuel);
    st := Loading(queued, 0, layers, []);
    fuelLeft := fuel;
    raised := false;
    while !raised && st.next < |st.followers| && 0 < fuelLeft
      invariant !raised ==> Run(wf, st, fuelLeft) == target
      invariant raised ==> target == Raised(st)
      decreases fuelLeft, if raised then 0 else 1
    {
      raised, st := LoadIteration(wf, st, fuelLeft);
      if !raised {
        fuelLeft := fuelLeft - 1;
      }
    }
  }

  /** The worklist loop, for at most `fuel` iterations. */
  method Worklist(wf: Workflow, queued: seq<string>, layers: seq<string>, fuel: nat) returns (result: LoadResult)
    ensures result == Run(wf, Loading(queued, 0, layers, []), fuel)
  {
    var raised, st, fuelLeft := Iterate(wf, queued, layers, fuel);
    if raised {
      result := Raised(st);
    } else {
      RunStops(wf, st, fuelLeft);
      if |st.followers| <= st.next {
        result := Finished(st);
      } else {
        result := OutOfFuel(st);
      }
    }
  }

  /** `load_remaining_workflow`, from the names of the viewer's layers, for at most `fuel`
      iterations of the worklist loop. */
  method LoadRemainingWorkflow(wf: Workflow, layers: seq<string>, fuel: nat) returns (result: LoadResult)
    ensures result == LoadSpec(wf, layers, fuel)
  {
    var rootFunctions := WfStepsWithRootAsInput(wf);
    var followers := CollectFollowers(wf, rootFunctions);
    result := Worklist(wf, followers, layers, fuel);
  }

  /** The queue rules: every new follower is queued after position i, the queue only grows
      at its end, and each follower appended is one of the new followers that was not
      already queued after position i. */
  lemma {:induction false} EnqueueFacts(fs: seq<string>, i: nat, news: seq<string>)
    requires i < |fs|
    ensures var r := Enqueue(fs, i, news);
      && (forall n :: n in news ==> n in r[i + 1..])
      && (forall k :: |fs| <= k < |r| ==> r[k] in news && r[k] !in r[i + 1..k])
    decreases |news|
  {
    if news != [] {
      var init := news[..|news| - 1];
      var last := news[|news| - 1];
      var before := Enqueue(fs, i, init);
      var r := Enqueue(fs, i, news);
      EnqueueFacts(fs, i, init);
      assert forall k :: |fs| <= k < |before| ==> before[k] in init && before[k] !in before[i + 1..k];
      assert news == init + [last];
      if last in before[i + 1..] {
        assert r == before;
      } else {
        assert r == before + [last];
        assert r[i + 1..] == before[i + 1..] + [last];
        forall k | |fs| <= k < |r|
          ensures r[k] in news && r[k] !in r[i + 1..k]
        {
          if k < |before| {
            assert r[k] == before[k] && r[i + 1..k] == before[i + 1..k];
          } else {
            assert r[i + 1..k] == before[i + 1..];
          }
        }
      }
    }
  }

  /** A deferred follower stays queued after its position, and is appended only when it is
      not queued there already. */
  lemma RequeueFacts(fs: seq<string>, i: nat, f: string)
    requires i < |fs|
    ensures var r := Requeue(fs, i, f);
      && f in r[i + 1..]
      && (f in fs[i + 1..] ==> r == fs)
      && (f !in fs[i + 1..] ==> r == fs + [f])
  {
    var r := Requeue(fs, i, f);
    if f !in fs[i + 1..] {
      assert r[|r| - 1] == f;
    }
  }

  /** A dock was opened for the step at a position already passed, whose sources are all
      among the layer names, with autocall exactly when the step has at most one source. */
  predicate Justified(wf: Workflow, st: Loading, dock: Dock)
  {
    exists j :: 0 <= j < st.next && j < |st.followers| && Opens(wf, st.followers[j], st.layers, dock)
  }

  predicate Opens(wf: Workflow, f: string, layers: seq<string>, dock: Dock)
  {
    && dock.name == Drop10(f)
    && dock.autocall == (|wf.sourcesOf(f)| <= 1)
    && AllIn(wf.sourcesOf(f), layers)
  }

  predicate AllJustified(wf: Workflow, st: Loading)
  {
    st.next <= |st.followers| && forall dock :: dock in st.docks ==> Justified(wf, st, dock)
  }

  /** One iteration keeps the queue up to its position, only adds layers and docks, and
      every dock it opens is justified. */
  lemma StepJustified(wf: Workflow, st: Loading)
    requires st.next < |st.followers| && AllJustified(wf, st) && Step(wf, st).Some?
    ensures var st' := Step(wf, st).value;
      && st'.followers[..|st.followers|] == st.followers
      && st'.next == st.next + 1
      && AllJustified(wf, st')
  {
    var st' := Step(wf, st).value;
    var f := st.followers[st.next];
    assert |st.followers| <= |st'.followers| && st'.followers[..|st.followers|] == st.followers;
    assert forall x :: x in st.layers ==> x in st'.layers;
    forall dock | dock in st'.docks
      ensures Justified(wf, st', dock)
    {
      if dock in st.docks {
        var j :| 0 <= j < st.next && j < |st.followers| && Opens(wf, st.followers[j], st.layers, dock);
        assert st'.followers[j] == st.followers[j];
        assert Opens(wf, st'.followers[j], st'.layers, dock);
      } else {
        assert st'.followers[st.next] == f;
        assert Opens(wf, st'.followers[st.next], st'.layers, dock);
      }
    }
  }

  /** Loading opens a dock only for a step reached in the queue whose inputs all exist as
      layers, and never removes a layer. */
  lemma {:induction false} RunJustified(wf: Workflow, st: Loading, fuel: nat)
    requires AllJustified(wf, st)
    ensures AllJustified(wf, Run(wf, st, fuel).state)
    ensures forall x :: x in st.layers ==> x in Run(wf, st, fuel).state.layers
    decreases fuel
  {
    if st.next < |st.followers| && 0 < fuel && Step(wf, st).Some? {
      var st' := Step(wf, st).value;
      StepJustified(wf, st);
      assert forall x :: x in st.layers ==> x in st'.layers;
      RunJustified(wf, st', fuel - 1);
    }
  }

  /** Every queued follower from the current position on lacks a layer for some source. */
  predicate Stuck(wf: Workflow, st: Loading)
  {
    && st.next < |st.followers|
    && forall k :: st.next <= k < |st.followers| ==> !AllIn(wf.sourcesOf(st.followers[k]), st.layers)
  }

  /** Once stuck, the loop only defers: it never finishes, whatever the bound, so the
      unbounded loop of the widget never returns. */
  lemma {:induction false} StuckNeverFinishes(wf: Workflow, st: Loading, fuel: nat)
    requires Stuck(wf, st)
    ensures Run(wf, st, fuel).OutOfFuel?
    decreases fuel
  {
    if 0 < fuel {
      var f := st.followers[st.next];
      var fs := Requeue(st.followers, st.next, f);
      var st' := st.(followers := fs, next := st.next + 1);
      assert Step(wf, st) == Some(st');
      RequeueFacts(st.followers, st.next, f);
      forall k | st'.next <= k < |fs|
        ensures !AllIn(wf.sourcesOf(fs[k]), st'.layers)
      {
        if k < |st.followers| {
          assert fs[k] == st.followers[k];
        } else {
          assert fs[k] == f;
        }
      }
      assert st'.next < |fs| by {
        if f in st.followers[st.next + 1..] {
          assert |st.followers[st.next + 1..]| > 0;
        }
      }
      StuckNeverFinishes(wf, st', fuel - 1);
    }
  }
}
