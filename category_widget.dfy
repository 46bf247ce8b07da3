/** The category widget of the napari assistant: which GUI slot feeds which parameter of the
    selected operation, how the positional arguments of the call are assembled, how the
    result layer is shown, and the signature the widget is generated from. Operations are
    abstracted to their parameter lists; parameter annotations to a few kinds. */
module CategoryWidget {
  import opened Wrappers
  import opened Strings

  /** The annotations the widget code tells apart. */
  datatype Kind = ImageKind | IntKind | FloatKind | BoolKind | StrKind | OtherKind

  datatype Param = Param(name: string, kind: Kind)

  /** An operation found by name: its parameters in declaration order, and whether it lives
      in the `pyclesperanto_prototype` module. */
  datatype Function = Function(params: seq<Param>, prototype: bool)

  /** `find_function`: operation name to operation. */
  type Functions = map<string, Function>

  /** The three kinds of GUI argument slot. */
  datatype Group = Numeric | Flag | Text

  function KindsOf(g: Group): set<Kind>
  {
    match g
    case Numeric => {IntKind, FloatKind}
    case Flag => {BoolKind}
    case Text => {StrKind}
  }

  /** The annotations `separate_argnames_by_type` keeps. */
  const ScalarKinds: set<Kind> := {IntKind, StrKind, FloatKind, BoolKind}

  /** The default type list of `num_positional_args`. */
  const PositionalKinds: set<Kind> := {ImageKind, IntKind, StrKind, FloatKind, BoolKind}

  /** The names of the parameters whose kind is in `kinds`, in declaration order. */
  function NamesOf(ps: seq<Param>, kinds: set<Kind>): (r: seq<string>)
    ensures |r| <= |ps|
  {
    if ps == [] then []
    else NamesOf(ps[..|ps| - 1], kinds) + (if ps[|ps| - 1].kind in kinds then [ps[|ps| - 1].name] else [])
  }

  /** Filtering is done element by element: it distributes over concatenation, so it keeps
      the declaration order. */
  lemma {:induction false} NamesOfConcat(a: seq<Param>, b: seq<Param>, kinds: set<Kind>)
    ensures NamesOf(a + b, kinds) == NamesOf(a, kinds) + NamesOf(b, kinds)
    decreases |b|
  {
    if b == [] {
      assert a + b == a;
    } else {
      var b' := b[..|b| - 1];
      assert (a + b)[..|a + b| - 1] == a + b';
      NamesOfConcat(a, b', kinds);
    }
  }

  /** A name is kept exactly when some parameter of a wanted kind carries it. */
  lemma {:induction false} NamesOfMember(ps: seq<Param>, kinds: set<Kind>, x: string)
    ensures x in NamesOf(ps, kinds) <==> exists i :: 0 <= i < |ps| && ps[i].kind in kinds && ps[i].name == x
    decreases |ps|
  {
    if ps != [] {
      var init := ps[..|ps| - 1];
      NamesOfMember(init, kinds, x);
      if x in NamesOf(init, kinds) {
        var i :| 0 <= i < |init| && init[i].kind in kinds && init[i].name == x;
        assert ps[i] == init[i];
      }
      if exists i :: 0 <= i < |ps| && ps[i].kind in kinds && ps[i].name == x {
        var i :| 0 <= i < |ps| && ps[i].kind in kinds && ps[i].name == x;
        if i < |init| {
          assert init[i] == ps[i];
        }
      }
    }
  }

  /** Every parameter's kind is wanted exactly when nothing is dropped. */
  lemma {:induction false} NamesOfAll(ps: seq<Param>, kinds: set<Kind>)
    ensures |NamesOf(ps, kinds)| == |ps| <==> forall i :: 0 <= i < |ps| ==> ps[i].kind in kinds
    decreases |ps|
  {
    if ps != [] {
      var init := ps[..|ps| - 1];
      NamesOfAll(init, kinds);
      if |NamesOf(ps, kinds)| == |ps| {
        assert ps[|ps| - 1].kind in kinds;
        assert |NamesOf(init, kinds)| == |init|;
        forall i | 0 <= i < |ps| ensures ps[i].kind in kinds {
          if i < |init| {
            assert init[i] == ps[i];
          }
        }
      }
      if forall i :: 0 <= i < |ps| ==> ps[i].kind in kinds {
        forall i | 0 <= i < |init| ensures init[i].kind in kinds {
          assert init[i] == ps[i];
        }
      }
    }
  }

  /** Filtering by two disjoint kind sets splits the filter by their union. */
  lemma {:induction false} NamesOfUnion(ps: seq<Param>, a: set<Kind>, b: set<Kind>)
    requires a !! b
    ensures multiset(NamesOf(ps, a + b)) == multiset(NamesOf(ps, a)) + multiset(NamesOf(ps, b))
    decreases |ps|
  {
    if ps != [] {
      NamesOfUnion(ps[..|ps| - 1], a, b);
    }
  }

  /** `num_positional_args` with its default type list. */
  function NumPositionalArgs(f: Function): (n: nat)
    ensures n <= |f.params|
  {
    |NamesOf(f.params, PositionalKinds)|
  }

  /** The count is the number of image parameters plus the number of scalar ones, and it
      equals the parameter count exactly when every parameter has a counted annotation. */
  lemma NumPositionalArgsCounts(f: Function)
    ensures NumPositionalArgs(f) == |NamesOf(f.params, {ImageKind})| + |NamesOf(f.params, ScalarKinds)|
    ensures NumPositionalArgs(f) == |f.params| <==> forall i :: 0 <= i < |f.params| ==> f.params[i].kind in PositionalKinds
  {
    assert PositionalKinds == {ImageKind} + ScalarKinds;
    NamesOfUnion(f.params, {ImageKind}, ScalarKinds);
    assert |multiset(NamesOf(f.params, PositionalKinds))| == |NamesOf(f.params, PositionalKinds)|;
    NamesOfAll(f.params, PositionalKinds);
  }

  /** What `separate_argnames_by_type` returns. */
  datatype Separated = Separated(params: seq<string>, numeric: seq<string>, flags: seq<string>, texts: seq<string>)

  function SeparateArgnames(ps: seq<Param>): (r: Separated)
  {
    Separated(NamesOf(ps, ScalarKinds), NamesOf(ps, KindsOf(Numeric)), NamesOf(ps, KindsOf(Flag)), NamesOf(ps, KindsOf(Text)))
  }

  /** The numeric, boolean and text lists partition the parameter list. */
  lemma SeparatePartition(ps: seq<Param>)
    ensures var r := SeparateArgnames(ps);
      multiset(r.params) == multiset(r.numeric) + multiset(r.flags) + multiset(r.texts)
  {
    NamesOfUnion(ps, KindsOf(Numeric), KindsOf(Flag));
    NamesOfUnion(ps, KindsOf(Numeric) + KindsOf(Flag), KindsOf(Text));
    assert KindsOf(Numeric) + KindsOf(Flag) + KindsOf(Text) == ScalarKinds;
  }

  /** All four lists keep declaration order: separating the parameters of two consecutive
      stretches of a signature is separating each and concatenating. */
  lemma SeparateInOrder(a: seq<Param>, b: seq<Param>)
    ensures var r := SeparateArgnames(a + b);
      var ra := SeparateArgnames(a);
      var rb := SeparateArgnames(b);
      r.params == ra.params + rb.params && r.numeric == ra.numeric + rb.numeric
      && r.flags == ra.flags + rb.flags && r.texts == ra.texts + rb.texts
  {
    NamesOfConcat(a, b, ScalarKinds);
    NamesOfConcat(a, b, KindsOf(Numeric));
    NamesOfConcat(a, b, KindsOf(Flag));
    NamesOfConcat(a, b, KindsOf(Text));
  }

  // ---------------------------------------------------------------------------------------
  // GUI slots

  /** One GUI argument slot: its widget name, its group and its default value as text. */
  datatype ArgSlot = ArgSlot(name: string, group: Group, default: string)

  /** `category_args`: six numeric, three boolean and three text slots. */
  const CategoryArgs: seq<ArgSlot> := [
    ArgSlot("x", Numeric, "0"), ArgSlot("y", Numeric, "0"), ArgSlot("z", Numeric, "0"),
    ArgSlot("u", Numeric, "0"), ArgSlot("v", Numeric, "0"), ArgSlot("w", Numeric, "0"),
    ArgSlot("a", Flag, "False"), ArgSlot("b", Flag, "False"), ArgSlot("c", Flag, "False"),
    ArgSlot("k", Text, ""), ArgSlot("l", Text, ""), ArgSlot("m", Text, "")]

  const NumericSlots: seq<string> := ["x", "y", "z", "u", "v", "w"]
  const BoolSlots: seq<string> := ["a", "b", "c"]
  const TextSlots: seq<string> := ["k", "l", "m"]

  function Slots(g: Group): seq<string>
  {
    match g
    case Numeric => NumericSlots
    case Flag => BoolSlots
    case Text => TextSlots
  }

  function Names(sep: Separated, g: Group): seq<string>
  {
    match g
    case Numeric => sep.numeric
    case Flag => sep.flags
    case Text => sep.texts
  }

  /** The number of slots of group `g` among `slots`. */
  function SlotCount(slots: seq<ArgSlot>, g: Group): (c: nat)
    ensures c <= |slots|
  {
    if slots == [] then 0
    else SlotCount(slots[..|slots| - 1], g) + (if slots[|slots| - 1].group == g then 1 else 0)
  }

  lemma SlotCountStep(slots: seq<ArgSlot>, n: nat, g: Group)
    requires n < |slots|
    ensures SlotCount(slots[..n + 1], g) == SlotCount(slots[..n], g) + (if slots[n].group == g then 1 else 0)
  {
    assert slots[..n + 1][..n] == slots[..n];
  }

  /** The slot lists name the slots of `category_args` group by group, in order. */
  lemma SlotListsAgree(n: nat)
    requires n < |CategoryArgs|
    ensures var g := CategoryArgs[n].group;
      SlotCount(CategoryArgs[..n], g) < |Slots(g)| && Slots(g)[SlotCount(CategoryArgs[..n], g)] == CategoryArgs[n].name
  {
    var g := CategoryArgs[n].group;
    var c := SlotCount(CategoryArgs[..n], g);
    if n < 6 {
      assert c == n by { SlotCountPrefix(n, g); }
    } else if n < 9 {
      assert c == n - 6 by { SlotCountPrefix(n, g); }
    } else {
      assert c == n - 9 by { SlotCountPrefix(n, g); }
    }
  }

  /** The slot counts of each prefix of `category_args`, slot group by slot group. */
  lemma {:induction false} SlotCountPrefix(n: nat, g: Group)
    requires n <= |CategoryArgs|
    ensures SlotCount(CategoryArgs[..n], g) ==
      match g
      case Numeric => if n < 6 then n else 6
      case Flag => if n < 6 then 0 else if n < 9 then n - 6 else 3
      case Text => if n < 9 then 0 else n - 9
  {
    if n > 0 {
      SlotCountPrefix(n - 1, g);
      assert CategoryArgs[..n][..n - 1] == CategoryArgs[..n - 1];
    }
  }

  // ---------------------------------------------------------------------------------------
  // call_op

  /** The group a parameter name falls into by list membership, tested numeric first. */
  function GroupOf(key: string, sep: Separated): Option<Group>
  {
    if key in sep.numeric then Some(Numeric)
    else if key in sep.flags then Some(Flag)
    else if key in sep.texts then Some(Text)
    else None
  }

  /** The names among `keys` whose group is `g`, in order. */
  function InGroup(keys: seq<string>, sep: Separated, g: Group): (r: seq<string>)
    ensures |r| <= |keys|
  {
    if keys == [] then []
    else InGroup(keys[..|keys| - 1], sep, g) + (if GroupOf(keys[|keys| - 1], sep) == Some(g) then [keys[|keys| - 1]] else [])
  }

  /** The GUI slot read for parameter `j`: the k-th parameter of a group, counting from 0,
      reads the k-th slot of that group; None when the group has no k-th slot. */
  function SlotOf(sep: Separated, j: nat): Option<string>
    requires j < |sep.params|
  {
    match GroupOf(sep.params[j], sep)
    case None => None
    case Some(g) =>
      var k := |InGroup(sep.params[..j], sep, g)|;
      if k < |Slots(g)| then Some(Slots(g)[k]) else None
  }

  /** The value parameter `j` receives: its slot's keyword argument, when both exist. */
  function SlotRead(sep: Separated, kwargs: map<string, string>, j: nat): Option<string>
    requires j < |sep.params|
  {
    match SlotOf(sep, j)
    case Some(slot) => if slot in kwargs then Some(kwargs[slot]) else None
    case None => None
  }

  /** Every parameter has a slot and the keyword arguments hold it. */
  predicate SlotsAvailable(sep: Separated, kwargs: map<string, string>)
  {
    forall j :: 0 <= j < |sep.params| ==> SlotRead(sep, kwargs, j).Some?
  }

  /** The values of the slots read for the parameters, one per parameter in order; None when
      a slot index runs past its list or a keyword argument is missing. */
  function SlotArgs(sep: Separated, kwargs: map<string, string>): (r: Option<seq<string>>)
    ensures r.Some? <==> SlotsAvailable(sep, kwargs)
    ensures r.Some? ==> |r.value| == |sep.params|
  {
    if SlotsAvailable(sep, kwargs) then
      Some(seq(|sep.params|, j requires 0 <= j < |sep.params| => SlotRead(sep, kwargs, j).value))
    else None
  }

  lemma InGroupSnoc(keys: seq<string>, x: string, sep: Separated, g: Group)
    ensures InGroup(keys + [x], sep, g) == InGroup(keys, sep, g) + (if GroupOf(x, sep) == Some(g) then [x] else [])
  {
    assert (keys + [x])[..|keys|] == keys;
  }

  /** One step of the counter loop: parameter i reads the slot its group's counter points
      at, and only that counter advances. */
  lemma SlotOfStep(sep: Separated, i: nat, numCount: nat, boolCount: nat, strCount: nat)
    requires i < |sep.params|
    requires numCount == |InGroup(sep.params[..i], sep, Numeric)|
    requires boolCount == |InGroup(sep.params[..i], sep, Flag)|
    requires strCount == |InGroup(sep.params[..i], sep, Text)|
    ensures var key := sep.params[i];
      SlotOf(sep, i) ==
        if key in sep.numeric then (if numCount < |NumericSlots| then Some(NumericSlots[numCount]) else None)
        else if key in sep.flags then (if boolCount < |BoolSlots| then Some(BoolSlots[boolCount]) else None)
        else if key in sep.texts then (if strCount < |TextSlots| then Some(TextSlots[strCount]) else None)
        else None
    ensures var key := sep.params[i];
      && |InGroup(sep.params[..i + 1], sep, Numeric)| == numCount + (if key in sep.numeric then 1 else 0)
      && |InGroup(sep.params[..i + 1], sep, Flag)| == boolCount + (if key !in sep.numeric && key in sep.flags then 1 else 0)
      && |InGroup(sep.params[..i + 1], sep, Text)| == strCount + (if key !in sep.numeric && key !in sep.flags && key in sep.texts then 1 else 0)
  {
    var key := sep.params[i];
    assert sep.params[..i + 1] == sep.params[..i] + [key];
    InGroupSnoc(sep.params[..i], key, sep, Numeric);
    InGroupSnoc(sep.params[..i], key, sep, Flag);
    InGroupSnoc(sep.params[..i], key, sep, Text);
  }

  /** The counter loop of `call_op`: the value of each parameter's slot, in parameter order. */
  method CollectArgs(sep: Separated, kwargs: map<string, string>) returns (r: Option<seq<string>>)
    ensures r == SlotArgs(sep, kwargs)
  {
    var args: seq<string> := [];
    var numCount, boolCount, strCount := 0, 0, 0;
    var i := 0;
    while i < |sep.params|
      invariant 0 <= i <= |sep.params|
      invariant |args| == i
      invariant numCount == |InGroup(sep.params[..i], sep, Numeric)|
      invariant boolCount == |InGroup(sep.params[..i], sep, Flag)|
      invariant strCount == |InGroup(sep.params[..i], sep, Text)|
      invariant forall j :: 0 <= j < i ==> SlotRead(sep, kwargs, j) == Some(args[j])
    {
      var key := sep.params[i];
      SlotOfStep(sep, i, numCount, boolCount, strCount);
      var slot: string;
      if key in sep.numeric {
        if numCount >= |NumericSlots| {
          assert SlotRead(sep, kwargs, i).None?;
          return None;
        }
        slot := NumericSlots[numCount];
        numCount := numCount + 1;
      } else if key in sep.flags {
        if boolCount >= |BoolSlots| {
          assert SlotRead(sep, kwargs, i).None?;
          return None;
        }
        slot := BoolSlots[boolCount];
        boolCount := boolCount + 1;
      } else if key in sep.texts {
        if strCount >= |TextSlots| {
          assert SlotRead(sep, kwargs, i).None?;
          return None;
        }
        slot := TextSlots[strCount];
        strCount := strCount + 1;
      } else {
        assert SlotRead(sep, kwargs, i).None?;
        return None;
      }
      if slot !in kwargs {
        assert SlotRead(sep, kwargs, i).None?;
        return None;
      }
      args := args + [kwargs[slot]];
      i := i + 1;
    }
    assert SlotsAvailable(sep, kwargs);
    var expected := SlotArgs(sep, kwargs).value;
    assert |expected| == |args|;
    assert forall j :: 0 <= j < |args| ==> expected[j] == args[j];
    assert expected == args;
    return Some(args);
  }

  /** A positional argument of the operation call. */
  datatype Arg = Data(layer: nat) | NoOutput | SlotValue(value: string)

  /** Python's `s[:n]` for a non-negative `n`. */
  function Prefix<T>(s: seq<T>, n: nat): (r: seq<T>)
    ensures |r| == if n < |s| then n else |s|
    ensures r == s[..|r|]
  {
    if n < |s| then s[..n] else s
  }

  /** The device inputs: a missing input is replaced by the first input's data. */
  function GpuInputs(inputs: seq<Option<nat>>): (r: seq<Arg>)
    requires |inputs| > 0 && inputs[0].Some?
    ensures |r| == |inputs|
    ensures forall i :: 0 <= i < |inputs| ==> r[i] == Data(if inputs[i].Some? then inputs[i].value else inputs[0].value)
  {
    seq(|inputs|, i requires 0 <= i < |inputs| => Data(if inputs[i].Some? then inputs[i].value else inputs[0].value))
  }

  function SlotValues(vals: seq<string>): (r: seq<Arg>)
    ensures |r| == |vals| && forall i :: 0 <= i < |vals| ==> r[i] == SlotValue(vals[i])
  {
    seq(|vals|, i requires 0 <= i < |vals| => SlotValue(vals[i]))
  }

  /** The positional arguments `call_op` passes to the operation; None when it returns
      nothing or fails (no first input, unknown operation, a slot out of range, a missing
      keyword argument), all of which the widget treats alike. */
  function CallOpSpec(functions: Functions, opName: string, inputs: seq<Option<nat>>, kwargs: map<string, string>): (r: Option<seq<Arg>>)
    ensures (|inputs| == 0 || inputs[0].None? || opName !in functions) ==> r.None?
    ensures |inputs| > 0 && inputs[0].Some? && opName in functions ==>
      (r.Some? <==> SlotsAvailable(SeparateArgnames(functions[opName].params), kwargs))
  {
    if |inputs| == 0 || inputs[0].None? then None
    else if opName !in functions then None
    else
      var f := functions[opName];
      var nargs := NumPositionalArgs(f);
      match SlotArgs(SeparateArgnames(f.params), kwargs)
      case None => None
      case Some(vals) => Some(Assemble(inputs, f.prototype, vals, nargs))
  }

  /** The final positional arguments: `(inputs, None, args)[:nargs]` for a prototype
      operation, `(inputs, args)[:nargs + 1]` for any other. */
  function Assemble(inputs: seq<Option<nat>>, prototype: bool, vals: seq<string>, nargs: nat): seq<Arg>
    requires |inputs| > 0 && inputs[0].Some?
  {
    if prototype then Prefix(GpuInputs(inputs) + [NoOutput] + SlotValues(vals), nargs)
    else Prefix(GpuInputs(inputs) + SlotValues(vals), nargs + 1)
  }

  /** The call starts with the inputs, a missing one standing for the first; a prototype
      operation then gets the empty output slot; the slot values follow in parameter order;
      the whole is cut to the operation's positional count (plus one for the others). */
  lemma AssembleLayout(inputs: seq<Option<nat>>, prototype: bool, vals: seq<string>, nargs: nat)
    requires |inputs| > 0 && inputs[0].Some?
    ensures var r := Assemble(inputs, prototype, vals, nargs);
      var lead := if prototype then |inputs| + 1 else |inputs|;
      var cut := if prototype then nargs else nargs + 1;
      && |r| == (if cut < lead + |vals| then cut else lead + |vals|)
      && (forall i :: 0 <= i < |r| && i < |inputs| ==> r[i] == Data(if inputs[i].Some? then inputs[i].value else inputs[0].value))
      && (prototype && |inputs| < |r| ==> r[|inputs|] == NoOutput)
      && (forall i :: lead <= i < |r| ==> r[i] == SlotValue(vals[i - lead]))
  {
    var head := if prototype then GpuInputs(inputs) + [NoOutput] else GpuInputs(inputs);
    var cut := if prototype then nargs else nargs + 1;
    assert Assemble(inputs, prototype, vals, nargs) == Prefix(head + SlotValues(vals), cut);
    PrefixOfConcat(head, SlotValues(vals), cut);
  }

  /** `call_op`, minus the device work: the arguments handed to the operation. */
  method CallOp(functions: Functions, opName: string, inputs: seq<Option<nat>>, kwargs: map<string, string>) returns (r: Option<seq<Arg>>)
    ensures r == CallOpSpec(functions, opName, inputs, kwargs)
  {
    if |inputs| == 0 || inputs[0].None? {
      return None;
    }
    var gpuIns := GpuInputs(inputs);
    if opName !in functions {
      return None;
    }
    var f := functions[opName];
    var nargs := NumPositionalArgs(f);
    var sep := SeparateArgnames(f.params);
    var vals := CollectArgs(sep, kwargs);
    if vals.None? {
      return None;
    }
    var args := SlotValues(vals.value);
    if f.prototype {
      r := Some(Prefix(gpuIns + [NoOutput] + args, nargs));
    } else {
      r := Some(Prefix(gpuIns + args, nargs + 1));
    }
  }

  lemma PrefixOfConcat<T>(a: seq<T>, b: seq<T>, n: nat)
    ensures var r := Prefix(a + b, n);
      (forall i :: 0 <= i < |r| && i < |a| ==> r[i] == a[i]) && (forall i :: |a| <= i < |r| ==> r[i] == b[i - |a|])
  {
  }

  /** With distinct parameter names, a name's membership group is its own kind's group. */
  lemma GroupOfParam(ps: seq<Param>, i: nat)
    requires DistinctNames(ps)
    requires i < |ps| && ps[i].kind in ScalarKinds
    ensures GroupOf(ps[i].name, SeparateArgnames(ps)) == Some(GroupOfKind(ps[i].kind))
  {
    var x := ps[i].name;
    NamesOfMember(ps, KindsOf(Numeric), x);
    NamesOfMember(ps, KindsOf(Flag), x);
    NamesOfMember(ps, KindsOf(Text), x);
  }

  predicate DistinctNames(ps: seq<Param>)
  {
    forall i, j :: 0 <= i < j < |ps| ==> ps[i].name != ps[j].name
  }

  function GroupOfKind(k: Kind): Group
    requires k in ScalarKinds
  {
    if k in KindsOf(Numeric) then Numeric else if k == BoolKind then Flag else Text
  }

  /** With distinct names, picking a group's names out of the parameter list by membership
      gives that group's list again. */
  lemma {:induction false} InGroupIsNames(ps: seq<Param>, m: nat, g: Group)
    requires DistinctNames(ps) && m <= |ps|
    ensures InGroup(NamesOf(ps[..m], ScalarKinds), SeparateArgnames(ps), g) == NamesOf(ps[..m], KindsOf(g))
  {
    var sep := SeparateArgnames(ps);
    if m > 0 {
      InGroupIsNames(ps, m - 1, g);
      assert ps[..m][..m - 1] == ps[..m - 1];
      var p := ps[m - 1];
      assert ps[..m][m - 1] == p;
      if p.kind in ScalarKinds {
        GroupOfParam(ps, m - 1);
        InGroupSnoc(NamesOf(ps[..m - 1], ScalarKinds), p.name, sep, g);
      } else {
        assert p.kind !in KindsOf(g);
        assert NamesOf(ps[..m], ScalarKinds) == NamesOf(ps[..m - 1], ScalarKinds);
        assert NamesOf(ps[..m], KindsOf(g)) == NamesOf(ps[..m - 1], KindsOf(g));
      }
    }
  }

  /** The k-th name of a group sits at some position j of the parameter list that has
      exactly k earlier names of the group. */
  lemma {:induction false} InGroupPosition(keys: seq<string>, sep: Separated, g: Group, k: nat)
    requires k < |InGroup(keys, sep, g)|
    ensures exists j :: (0 <= j < |keys| && keys[j] == InGroup(keys, sep, g)[k]
      && GroupOf(keys[j], sep) == Some(g) && |InGroup(keys[..j], sep, g)| == k)
    decreases |keys|
  {
    var init := keys[..|keys| - 1];
    var last := keys[|keys| - 1];
    assert keys == init + [last];
    InGroupSnoc(init, last, sep, g);
    if k < |InGroup(init, sep, g)| {
      InGroupPosition(init, sep, g, k);
      var j :| 0 <= j < |init| && init[j] == InGroup(init, sep, g)[k]
        && GroupOf(init[j], sep) == Some(g) && |InGroup(init[..j], sep, g)| == k;
      assert keys[j] == init[j] && keys[..j] == init[..j];
    } else {
      assert keys[..|keys| - 1] == init;
    }
  }

  /** The k-th parameter of a group takes the k-th GUI slot of that group: for a signature
      with distinct names, the k-th numeric, boolean or text parameter, as listed by
      `separate_argnames_by_type`, reads slot `category_args_numeric[k]`, `_bool[k]` or
      `_text[k]`. */
  lemma KthParameterTakesKthSlot(ps: seq<Param>, g: Group, k: nat)
    requires DistinctNames(ps)
    requires k < |Names(SeparateArgnames(ps), g)| && k < |Slots(g)|
    ensures var sep := SeparateArgnames(ps);
      exists j :: 0 <= j < |sep.params| && sep.params[j] == Names(sep, g)[k] && SlotOf(sep, j) == Some(Slots(g)[k])
  {
    var sep := SeparateArgnames(ps);
    assert ps[..|ps|] == ps;
    InGroupIsNames(ps, |ps|, g);
    InGroupPosition(sep.params, sep, g, k);
  }

  // ---------------------------------------------------------------------------------------
  // update_positional_labels

  /** What a GUI slot shows after the operation changes: the parameter name it now feeds, or
      nothing (hidden). */
  datatype Label = Shown(param: string) | Hidden

  /** Slot n of `slots` is the k-th slot of its group; it shows the k-th parameter name of
      that group, and is hidden when the operation has no k-th such parameter. */
  function LabelAt(slots: seq<ArgSlot>, sep: Separated, n: nat): Label
    requires n < |slots|
  {
    var g := slots[n].group;
    var k := SlotCount(slots[..n], g);
    if k < |Names(sep, g)| then Shown(Names(sep, g)[k]) else Hidden
  }

  /** The label of slot n of `category_args`. */
  function LabelFor(sep: Separated, n: nat): Label
    requires n < |CategoryArgs|
  {
    LabelAt(CategoryArgs, sep, n)
  }

  function Min(a: nat, b: nat): nat
  {
    if a < b then a else b
  }

  /** The number of slots of group `g` among the first `n` that show a parameter. */
  function ShownCount(slots: seq<ArgSlot>, sep: Separated, n: nat, g: Group): nat
    requires n <= |slots|
  {
    Min(SlotCount(slots[..n], g), |Names(sep, g)|)
  }

  lemma ShownStep(slots: seq<ArgSlot>, sep: Separated, n: nat, g: Group)
    requires n < |slots|
    ensures ShownCount(slots, sep, n + 1, g) ==
      ShownCount(slots, sep, n, g) + (if slots[n].group == g && ShownCount(slots, sep, n, g) < |Names(sep, g)| then 1 else 0)
  {
    SlotCountStep(slots, n, g);
  }

  /** The relabelling loop over a slot list. */
  method Relabel(slots: seq<ArgSlot>, sep: Separated) returns (labels: seq<Label>)
    ensures |labels| == |slots|
    ensures forall n :: 0 <= n < |slots| ==> labels[n] == LabelAt(slots, sep, n)
  {
    var numCount, boolCount, strCount := 0, 0, 0;
    labels := [];
    var n := 0;
    while n < |slots|
      invariant 0 <= n <= |slots|
      invariant |labels| == n
      invariant numCount == ShownCount(slots, sep, n, Numeric)
      invariant boolCount == ShownCount(slots, sep, n, Flag)
      invariant strCount == ShownCount(slots, sep, n, Text)
      invariant forall m :: 0 <= m < n ==> labels[m] == LabelAt(slots, sep, m)
    {
      var arg := slots[n];
      ShownStep(slots, sep, n, Numeric);
      ShownStep(slots, sep, n, Flag);
      ShownStep(slots, sep, n, Text);
      var slotLabel: Label;
      match arg.group {
      case Numeric =>
        if numCount < |sep.numeric| {
          slotLabel := Shown(sep.numeric[numCount]);
          numCount := numCount + 1;
        } else {
          slotLabel := Hidden;
        }
      case Flag =>
        if boolCount < |sep.flags| {
          slotLabel := Shown(sep.flags[boolCount]);
          boolCount := boolCount + 1;
        } else {
          slotLabel := Hidden;
        }
      case Text =>
        if strCount < |sep.texts| {
          slotLabel := Shown(sep.texts[strCount]);
          strCount := strCount + 1;
        } else {
          slotLabel := Hidden;
        }
      }
      labels := labels + [slotLabel];
      n := n + 1;
    }
  }

  /** `update_positional_labels`: relabels or hides the slots of `category_args`, slot by
      slot. */
  method UpdatePositionalLabels(sep: Separated) returns (labels: seq<Label>)
    ensures |labels| == |CategoryArgs|
    ensures forall n :: 0 <= n < |CategoryArgs| ==> labels[n] == LabelFor(sep, n)
  {
    labels := Relabel(CategoryArgs, sep);
  }

  /** The label a slot shows is the parameter that slot's value is passed to: for a
      signature with distinct names, a slot showing name p is the slot `call_op` reads for
      parameter p. */
  lemma ShownSlotFeedsItsParameter(ps: seq<Param>, n: nat)
    requires DistinctNames(ps) && n < |CategoryArgs|
    requires LabelFor(SeparateArgnames(ps), n).Shown?
    ensures var sep := SeparateArgnames(ps);
      exists j :: 0 <= j < |sep.params| && sep.params[j] == LabelFor(sep, n).param && SlotOf(sep, j) == Some(CategoryArgs[n].name)
  {
    var g := CategoryArgs[n].group;
    SlotListsAgree(n);
    KthParameterTakesKthSlot(ps, g, SlotCount(CategoryArgs[..n], g));
  }

  /** A slot is hidden exactly when its group has no more parameters than slots before it;
      so an operation with c numeric parameters shows the first c numeric slots and no
      other (c at most six). */
  lemma HiddenBeyondCount(sep: Separated, n: nat)
    requires n < |CategoryArgs|
    ensures var g := CategoryArgs[n].group;
      LabelFor(sep, n) == Hidden <==> |Names(sep, g)| <= (if g == Numeric then n else if g == Flag then n - 6 else n - 9)
  {
    SlotCountPrefix(n, CategoryArgs[n].group);
  }

  // ---------------------------------------------------------------------------------------
  // _generate_signature_for_category

  /** A category as the signature builder reads it: the input annotations, the default
      operation and the slot default overrides. */
  datatype Category = Category(name: string, inputs: seq<string>, defaultOp: string, defaultValues: seq<string>)

  datatype Annotation = InputType(t: string) | OperationChoice(choices: seq<string>) | SlotType(g: Group) | ViewerType

  /** A keyword-only parameter of the generated signature; its default as text, if any. */
  datatype SigParam = SigParam(name: string, annotation: Annotation, default: Option<string>)

  function InputParams(inputs: seq<string>): (r: seq<SigParam>)
    ensures |r| == |inputs|
  {
    seq(|inputs|, n requires 0 <= n < |inputs| => SigParam("input" + NatToString(n), InputType(inputs[n]), None))
  }

  /** The default of slot i: the category's i-th default value when it has one. */
  function SlotDefault(category: Category, i: nat): string
    requires i < |CategoryArgs|
  {
    if i < |category.defaultValues| then category.defaultValues[i] else CategoryArgs[i].default
  }

  function SlotParam(category: Category, i: nat): SigParam
    requires i < |CategoryArgs|
  {
    SigParam(CategoryArgs[i].name, SlotType(CategoryArgs[i].group), Some(SlotDefault(category, i)))
  }

  /** The operation chooser keeps the category's default only when it is a choice. */
  function OpParam(category: Category, choices: seq<string>): SigParam
  {
    SigParam("op_name", OperationChoice(choices), if category.defaultOp in choices then Some(category.defaultOp) else None)
  }

  const ViewerParam: SigParam := SigParam("viewer", ViewerType, Some("None"))

  /** The signature: inputs, operation chooser, the twelve slots, the viewer. */
  function SignatureSpec(category: Category, choices: seq<string>): seq<SigParam>
  {
    InputParams(category.inputs) + [OpParam(category, choices)]
    + seq(|CategoryArgs|, i requires 0 <= i < |CategoryArgs| => SlotParam(category, i))
    + [ViewerParam]
  }

  /** `_generate_signature_for_category`, appending parameter by parameter. */
  method GenerateSignature(category: Category, choices: seq<string>) returns (params: seq<SigParam>)
    ensures params == SignatureSpec(category, choices)
  {
    params := InputParams(category.inputs);
    var defaultOp: Option<string> := Some(category.defaultOp);
    if category.defaultOp !in choices {
      defaultOp := None;
    }
    params := params + [SigParam("op_name", OperationChoice(choices), defaultOp)];
    var head := params;
    var i := 0;
    while i < |CategoryArgs|
      invariant 0 <= i <= |CategoryArgs|
      invariant |params| == |head| + i
      invariant params[..|head|] == head
      invariant forall m :: 0 <= m < i ==> params[|head| + m] == SlotParam(category, m)
    {
      var default := CategoryArgs[i].default;
      if i < |category.defaultValues| {
        default := category.defaultValues[i];
      }
      params := params + [SigParam(CategoryArgs[i].name, SlotType(CategoryArgs[i].group), Some(default))];
      i := i + 1;
    }
    params := params + [ViewerParam];
    assert params == SignatureSpec(category, choices);
  }

  lemma InputNameShape(n: nat)
    ensures |"input" + NatToString(n)| >= 6 && ("input" + NatToString(n))[0] == 'i'
  {
  }

  /** The generated signature is valid Python: no two of its parameters share a name. */
  lemma SignatureNamesDistinct(category: Category, choices: seq<string>)
    ensures var ps := SignatureSpec(category, choices);
      forall a, b :: 0 <= a < b < |ps| ==> ps[a].name != ps[b].name
  {
    var ps := SignatureSpec(category, choices);
    var k := |category.inputs|;
    assert |ps| == k + 14;
    forall a, b | 0 <= a < b < |ps| ensures ps[a].name != ps[b].name {
      if b < k {
        assert ps[a].name == "input" + NatToString(a);
        assert ps[b].name == "input" + NatToString(b);
        if ps[a].name == ps[b].name {
          assert NatToString(a) == ps[a].name[5..] == ps[b].name[5..] == NatToString(b);
          NatToStringInjective(a, b);
        }
      } else if a < k {
        InputNameShape(a);
        assert ps[a].name == "input" + NatToString(a);
        assert b == k || b == k + 13 || |ps[b].name| == 1;
      } else {
        assert a - k < 14 && b - k < 14;
      }
    }
  }

  // ---------------------------------------------------------------------------------------
  // _show_result

  datatype LayerType = ImageLayer | LabelsLayer

  /** A viewer layer as `_show_result` sees it: the `op_id` in its metadata, if any, its
      name and data, whether it is a labels layer, and the contrast limits it was created
      with (image layers only). */
  datatype ViewerLayer = ViewerLayer(opId: Option<nat>, name: string, data: nat, isLabels: bool, clims: Option<(real, real)>)

  /** An upper contrast limit of 0 becomes 1, so the range is never [x, 0]. */
  function FixClims(lo: real, hi: real): (r: (real, real))
    ensures r.0 == lo && r.1 != 0.0
    ensures hi != 0.0 ==> r.1 == hi
  {
    if hi == 0.0 then (lo, 1.0) else (lo, hi)
  }

  /** The first layer carrying this operation id. */
  function FindOp(layers: seq<ViewerLayer>, opId: nat): (r: Option<nat>)
    ensures r.Some? ==> (r.value < |layers| && layers[r.value].opId == Some(opId)
      && forall j :: 0 <= j < r.value ==> layers[j].opId != Some(opId))
    ensures r.None? ==> forall j :: 0 <= j < |layers| ==> layers[j].opId != Some(opId)
  {
    if layers == [] then None
    else if layers[0].opId == Some(opId) then Some(0)
    else match FindOp(layers[1..], opId)
      case None => None
      case Some(i) => Some(i + 1)
  }

  /** The layers after showing a result, and the position of the shown layer: the layer of
      this operation gets the new data and name; otherwise a new layer is appended, an image
      with the fixed contrast limits or a labels layer without. */
  function ShowResultSpec(layers: seq<ViewerLayer>, data: nat, lo: real, hi: real, name: string, layerType: LayerType, opId: nat): (seq<ViewerLayer>, nat)
  {
    match FindOp(layers, opId)
    case Some(i) => (layers[i := layers[i].(data := data, name := name)], i)
    case None =>
      var clims := if layerType == ImageLayer then Some(FixClims(lo, hi)) else None;
      (layers + [ViewerLayer(Some(opId), name, data, layerType == LabelsLayer, clims)], |layers|)
  }

  /** The viewer's layer list. */
  class Viewer {
    var layers: seq<ViewerLayer>

    constructor (layers: seq<ViewerLayer>)
      ensures this.layers == layers
    {
      this.layers := layers;
    }
  }

  /** `_show_result`: nothing without a viewer; otherwise find-or-create the result layer.
      `lo` and `hi` are the device's minimum and maximum of the result. */
  method ShowResult(viewer: Viewer?, data: nat, lo: real, hi: real, name: string, layerType: LayerType, opId: nat) returns (r: Option<nat>)
    modifies viewer
    ensures viewer == null ==> r.None?
    ensures viewer != null ==>
      var (after, i) := ShowResultSpec(old(viewer.layers), data, lo, hi, name, layerType, opId);
      viewer.layers == after && r == Some(i)
  {
    if viewer == null {
      return None;
    }
    var clims := FixClims(lo, hi);
    var found := FindOp(viewer.layers, opId);
    if found.Some? {
      var i := found.value;
      viewer.layers := viewer.layers[i := viewer.layers[i].(data := data, name := name)];
      return Some(i);
    }
    var layerClims: Option<(real, real)> := None;
    if layerType == ImageLayer {
      layerClims := Some(clims);
    }
    viewer.layers := viewer.layers + [ViewerLayer(Some(opId), name, data, layerType == LabelsLayer, layerClims)];
    return Some(|viewer.layers| - 1);
  }

  /** No two layers share an operation id. */
  predicate UniqueOpIds(layers: seq<ViewerLayer>)
  {
    forall i, j :: 0 <= i < j < |layers| && layers[i].opId.Some? ==> layers[i].opId != layers[j].opId
  }

  /** Showing a result never creates a second layer for the same operation: the shown layer
      carries the result's name and data, and unique operation ids stay unique. */
  lemma ShowResultKeepsOneLayerPerOp(layers: seq<ViewerLayer>, data: nat, lo: real, hi: real, name: string, layerType: LayerType, opId: nat)
    requires UniqueOpIds(layers)
    ensures var (after, i) := ShowResultSpec(layers, data, lo, hi, name, layerType, opId);
      UniqueOpIds(after) && i < |after| && after[i].opId == Some(opId) && after[i].name == name && after[i].data == data
      && |after| == (if FindOp(layers, opId).Some? then |layers| else |layers| + 1)
  {
  }

  /** Showing a result of the same operation again updates the layer in place: the second
      call adds no layer. */
  lemma ShowResultAgainUpdates(layers: seq<ViewerLayer>, data: nat, data2: nat, lo: real, hi: real, lo2: real, hi2: real, name: string, name2: string, layerType: LayerType, opId: nat)
    ensures var (after, i) := ShowResultSpec(layers, data, lo, hi, name, layerType, opId);
      var (again, i2) := ShowResultSpec(after, data2, lo2, hi2, name2, layerType, opId);
      |again| == |after| && i2 == i && again[i].data == data2 && again[i].name == name2
  {
    var (after, i) := ShowResultSpec(layers, data, lo, hi, name, layerType, opId);
    assert i < |after| && after[i].opId == Some(opId);
    assert forall j :: 0 <= j < i ==> after[j].opId != Some(opId);
    var found := FindOp(after, opId);
    assert found == Some(i);
  }
}
