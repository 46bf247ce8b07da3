/** The Step/Pipeline line emitter: each step becomes a `cle` call line, an optional
    `cle.imshow` line and an empty separator line. */
module Pipeline {
  import opened Wrappers
  import opened Strings
  import opened Layers

  /** A literal step argument; `repr` quotes strings and prints numbers as they are. */
  datatype Literal = LitStr(s: string) | LitNum(text: string)

  /** What a step's `input` field holds: nothing, a plain int, or another Step object. */
  datatype StepInput = NoInput | IndexInput(i: int) | StepRef(id: nat)

  datatype Step = Step(
    operation: string,
    args: seq<Literal>,
    input: StepInput,
    isLabels: bool,
    clims: Option<(string, string)>)

  datatype Pipeline = Pipeline(steps: seq<Step>, show: bool)

  /** Python truthiness of the input field: None and 0 are false, a Step object is true. */
  predicate Truthy(input: StepInput)
  {
    match input
    case NoInput => false
    case IndexInput(i) => i != 0
    case StepRef(_) => true
  }

  /** `repr` of a literal: a string in Python's quoting, a number as its text. */
  function Repr(a: Literal): string
  {
    match a
    case LitStr(s) => StrRepr(s)
    case LitNum(t) => t
  }

  /** The quote `repr` puts around a string: a double quote when the string holds a single
      quote and no double quote, a single quote otherwise. */
  function QuoteOf(s: string): (q: char)
    ensures q == '\'' || q == '"'
  {
    if '\'' in s && '"' !in s then '"' else '\''
  }

  /** Python's `repr` of a string: the quote, every character escaped, the quote. */
  function StrRepr(s: string): string
  {
    [QuoteOf(s)] + Escaped(s, QuoteOf(s)) + [QuoteOf(s)]
  }

  function HexDigit(d: int): char
    requires 0 <= d < 16
  {
    "0123456789abcdef"[d]
  }

  /** One character as `repr` writes it inside quote `q`: the quote and the backslash
      behind a backslash, tab, newline and carriage return by name, any other control
      character as `\x` and two hex digits, everything else as it is. */
  function EscapeChar(c: char, q: char): string
  {
    if c == q || c == '\\' then ['\\', c]
    else if c == '\t' then "\\t"
    else if c == '\n' then "\\n"
    else if c == '\r' then "\\r"
    else if c < ' ' || c as int == 127 then "\\x" + [HexDigit(c as int / 16), HexDigit(c as int % 16)]
    else [c]
  }

  function Escaped(s: string, q: char): string
  {
    if |s| == 0 then "" else EscapeChar(s[0], q) + Escaped(s[1..], q)
  }

  /** The value of a hex digit `repr` writes. */
  function HexValue(c: char): int
  {
    if '0' <= c <= '9' then c as int - '0' as int
    else if 'a' <= c <= 'f' then c as int - 'a' as int + 10
    else 0
  }

  /** Reading an escaped text back: each escape to the character it stands for. */
  function Unescape(t: string): string
  {
    if |t| == 0 then ""
    else if t[0] == '\\' && |t| >= 2 then
      if t[1] == 't' then "\t" + Unescape(t[2..])
      else if t[1] == 'n' then "\n" + Unescape(t[2..])
      else if t[1] == 'r' then "\r" + Unescape(t[2..])
      else if t[1] == 'x' && |t| >= 4 then [(16 * HexValue(t[2]) + HexValue(t[3])) as char] + Unescape(t[4..])
      else [t[1]] + Unescape(t[2..])
    else [t[0]] + Unescape(t[1..])
  }

  /** The text inside the quotes of a `repr`. */
  function Unquote(r: string): string
  {
    if |r| < 2 then "" else Unescape(r[1..|r| - 1])
  }

  lemma UnescapeChar(c: char, q: char, rest: string)
    requires q == '\'' || q == '"'
    ensures Unescape(EscapeChar(c, q) + rest) == [c] + Unescape(rest)
  {
    if c == q || c == '\\' {
      UnescapeBackslash(c, c, rest);
    } else if c == '\t' {
      UnescapeBackslash('t', c, rest);
    } else if c == '\n' {
      UnescapeBackslash('n', c, rest);
    } else if c == '\r' {
      UnescapeBackslash('r', c, rest);
    } else if c < ' ' || c as int == 127 {
      UnescapeHex(c, rest);
    } else {
      assert ([c] + rest)[1..] == rest;
    }
  }

  /** A backslash and one more character: a named control character or the character. */
  lemma UnescapeBackslash(a: char, c: char, rest: string)
    requires a == 't' ==> c == '\t'
    requires a == 'n' ==> c == '\n'
    requires a == 'r' ==> c == '\r'
    requires a !in "tnrx" ==> c == a
    requires a != 'x'
    ensures Unescape(['\\', a] + rest) == [c] + Unescape(rest)
  {
    assert (['\\', a] + rest)[2..] == rest;
  }

  /** `\x` and two hex digits give back the control character. */
  lemma UnescapeHex(c: char, rest: string)
    requires c < ' ' || c as int == 127
    ensures Unescape("\\x" + [HexDigit(c as int / 16), HexDigit(c as int % 16)] + rest) == [c] + Unescape(rest)
  {
    var e := "\\x" + [HexDigit(c as int / 16), HexDigit(c as int % 16)];
    assert (e + rest)[4..] == rest;
    assert HexValue(HexDigit(c as int / 16)) == c as int / 16;
    assert HexValue(HexDigit(c as int % 16)) == c as int % 16;
  }

  /** Escaping loses nothing: reading the escaped text back gives the string. */
  lemma {:induction false} EscapedRoundTrip(s: string, q: char)
    requires q == '\'' || q == '"'
    ensures Unescape(Escaped(s, q)) == s
    decreases |s|
  {
    if |s| > 0 {
      UnescapeChar(s[0], q, Escaped(s[1..], q));
      EscapedRoundTrip(s[1..], q);
      assert s == [s[0]] + s[1..];
    }
  }

  /** `repr` is read back exactly: the quotes of a string's `repr` enclose its escaped
      text, and unescaping that text gives the string. */
  lemma StrReprRoundTrip(s: string)
    ensures var r := StrRepr(s);
      |r| >= 2 && r[0] == r[|r| - 1] == QuoteOf(s) && Unquote(r) == s
  {
    var q := QuoteOf(s);
    var r := StrRepr(s);
    assert r[1..|r| - 1] == Escaped(s, q);
    EscapedRoundTrip(s, q);
  }

  /** A text of plain characters, with no quote and no backslash, is quoted as it is. */
  lemma {:induction false} EscapedPlain(s: string, q: char)
    requires forall i :: 0 <= i < |s| ==> s[i] != q && s[i] != '\\' && ' ' <= s[i] && s[i] as int != 127
    ensures Escaped(s, q) == s
    decreases |s|
  {
    if |s| > 0 {
      EscapedPlain(s[1..], q);
      assert s == [s[0]] + s[1..];
    }
  }

  lemma StrReprPlain(s: string)
    requires forall i :: 0 <= i < |s| ==> s[i] != '\'' && s[i] != '\\' && ' ' <= s[i] && s[i] as int != 127
    ensures StrRepr(s) == "'" + s + "'"
  {
    EscapedPlain(s, '\'');
  }

  /** A string with a single quote and no double quote is put in double quotes, and its
      single quotes are then written as they are. */
  lemma StrReprSwitchesQuotes(s: string)
    requires '\'' in s && '"' !in s
    ensures StrRepr(s)[0] == '"'
  {
  }

  function PyBool(b: bool): string
  {
    if b then "True" else "False"
  }

  function ReprAll(args: seq<Literal>): (r: seq<string>)
    ensures |r| == |args|
    ensures forall k :: 0 <= k < |args| ==> r[k] == Repr(args[k])
  {
    if |args| == 0 then [] else [Repr(args[0])] + ReprAll(args[1..])
  }

  /** The argument texts of `operate(n)`: the previous image and a fresh buffer when the
      input is truthy, then the literal arguments. */
  function CallArgs(step: Step, n: int): seq<string>
  {
    (if Truthy(step.input) then [ImageName(n - 1), "cle.create_like(" + ImageName(n - 1) + ")"] else [])
    + ReprAll(step.args)
  }

  /** `Step.operate(n)`. */
  function Operate(step: Step, n: int): string
  {
    ImageName(n) + " = cle." + step.operation + "(" + Join(", ", CallArgs(step, n)) + ")"
  }

  function Title(step: Step): string
  {
    "Result of " + ReplaceAll(step.operation, "_", " ")
  }

  function ShowArgs(step: Step, n: int): seq<string>
  {
    [ImageName(n), Repr(LitStr(Title(step))), PyBool(step.isLabels)]
    + (if step.clims.Some? then [step.clims.value.0, step.clims.value.1] else [])
  }

  /** `Step.show(n)`. */
  function Show(step: Step, n: int): string
  {
    "cle.imshow(" + Join(", ", ShowArgs(step, n)) + ")"
  }

  /** The lines one step yields in `to_jython`. */
  function Group(step: Step, n: int, show: bool): (g: seq<string>)
    ensures |g| == if show then 3 else 2
  {
    [Operate(step, n)] + (if show then [Show(step, n)] else []) + [""]
  }

  /** The groups of lines, one group per step, numbered by position. */
  function Groups(steps: seq<Step>, show: bool): (gs: seq<seq<string>>)
    ensures |gs| == |steps|
    ensures forall k :: 0 <= k < |steps| ==> gs[k] == Group(steps[k], k, show)
  {
    seq(|steps|, k requires 0 <= k < |steps| => Group(steps[k], k, show))
  }

  function Concat<T>(gs: seq<seq<T>>): seq<T>
  {
    if |gs| == 0 then [] else gs[0] + Concat(gs[1..])
  }

  /** `Pipeline.to_jython()`, with the generator collected into a sequence of lines. */
  function ToJython(p: Pipeline): seq<string>
  {
    Concat(Groups(p.steps, p.show))
  }

  lemma MulSucc(a: nat, g: nat)
    ensures (a + 1) * g == a * g + g
  {
  }

  lemma SliceAfterPrefix<T>(head: seq<T>, rest: seq<T>, j: nat, g: nat)
    requires j + g <= |rest|
    ensures (head + rest)[|head| + j..|head| + j + g] == rest[j..j + g]
  {
  }

  /** Concatenating groups of g items each: group k sits at positions k*g up to k*g+g. */
  lemma {:induction false} ConcatUniform<T>(gs: seq<seq<T>>, g: nat, k: nat)
    requires forall i :: 0 <= i < |gs| ==> |gs[i]| == g
    requires k < |gs|
    ensures |Concat(gs)| == |gs| * g
    ensures k * g + g <= |Concat(gs)|
    ensures Concat(gs)[k * g..k * g + g] == gs[k]
    decreases |gs|
  {
    var rest := Concat(gs[1..]);
    assert Concat(gs) == gs[0] + rest;
    MulSucc(|gs| - 1, g);
    if |gs| == 1 {
      assert rest == [];
      assert Concat(gs)[0..g] == gs[0];
    } else if k == 0 {
      ConcatUniform(gs[1..], g, 0);
      assert Concat(gs)[0..g] == gs[0];
    } else {
      ConcatUniform(gs[1..], g, k - 1);
      MulSucc(k - 1, g);
      SliceAfterPrefix(gs[0], rest, (k - 1) * g, g);
    }
  }

  /** `to_jython` yields exactly 3 lines per step with `show` and 2 without, each step's
      group starting with its call line numbered by its position and ending with "". */
  lemma ToJythonLayout(p: Pipeline, k: nat)
    requires k < |p.steps|
    ensures var g := if p.show then 3 else 2;
      && |ToJython(p)| == |p.steps| * g
      && ToJython(p)[k * g] == Operate(p.steps[k], k)
      && (p.show ==> ToJython(p)[k * g + 1] == Show(p.steps[k], k))
      && ToJython(p)[k * g + g - 1] == ""
  {
    var g := if p.show then 3 else 2;
    var gs := Groups(p.steps, p.show);
    ConcatUniform(gs, g, k);
    GroupLines(p.steps[k], k, p.show);
    UniformItem(gs, g, k, 0);
    UniformItem(gs, g, k, g - 1);
    if p.show {
      UniformItem(gs, g, k, 1);
    }
  }

  /** Item j of group k sits at position k*g+j of the concatenation. */
  lemma UniformItem<T>(gs: seq<seq<T>>, g: nat, k: nat, j: nat)
    requires forall i :: 0 <= i < |gs| ==> |gs[i]| == g
    requires k < |gs| && j < g
    ensures k * g + j < |Concat(gs)|
    ensures Concat(gs)[k * g + j] == gs[k][j]
  {
    ConcatUniform(gs, g, k);
    ItemOfSlice(Concat(gs), k * g, g, j);
  }

  lemma ItemOfSlice<T>(s: seq<T>, a: nat, g: nat, j: nat)
    requires a + g <= |s| && j < g
    ensures s[a + j] == s[a..a + g][j]
  {
  }

  /** A step's group opens with its call and closes with "", with its `show` line between
      when there is one. */
  lemma GroupLines(step: Step, n: int, show: bool)
    ensures var g := Group(step, n, show);
      && g[0] == Operate(step, n)
      && g[|g| - 1] == ""
      && (show ==> g[1] == Show(step, n))
  {
  }

  /** An empty pipeline yields nothing. */
  lemma ToJythonEmpty(p: Pipeline)
    requires |p.steps| == 0
    ensures ToJython(p) == []
  {
  }

  /** `operate(n)` has the form `image{n} = cle.{operation}(...)`. */
  lemma OperateForm(step: Step, n: int)
    ensures StartsWith(Operate(step, n), "image" + IntToString(n) + " = cle." + step.operation + "(")
    ensures EndsWith(Operate(step, n), ")")
  {
    var head := "image" + IntToString(n) + " = cle." + step.operation + "(";
    var s := Operate(step, n);
    assert s == head + Join(", ", CallArgs(step, n)) + ")";
    assert s[..|head|] == head;
  }

  /** With a truthy input the call starts with the previous image and a buffer like it,
      whichever step the input refers to; otherwise only the literal arguments remain. */
  lemma OperateInputArgs(step: Step, n: int)
    ensures Truthy(step.input) ==>
      CallArgs(step, n)[..2] == [ImageName(n - 1), "cle.create_like(" + ImageName(n - 1) + ")"]
    ensures !Truthy(step.input) ==> CallArgs(step, n) == ReprAll(step.args)
    ensures |CallArgs(step, n)| == |step.args| + (if Truthy(step.input) then 2 else 0)
  {
  }

  /** `show` passes the step's image, its title ("Result of " and the operation with every
      '_' read as a space) and its labels flag; the display range follows exactly when
      `clims` is set. */
  lemma ShowArgsClims(step: Step, n: int)
    ensures |ShowArgs(step, n)| == if step.clims.Some? then 5 else 3
    ensures ShowArgs(step, n)[0] == ImageName(n)
    ensures ShowArgs(step, n)[1] == StrRepr("Result of " + ReplaceAll(step.operation, "_", " "))
    ensures '_' !in ReplaceAll(step.operation, "_", " ")
    ensures ShowArgs(step, n)[2] == PyBool(step.isLabels)
    ensures step.clims.Some? ==> ShowArgs(step, n)[3..] == [step.clims.value.0, step.clims.value.1]
  {
    ReplaceCharFacts(step.operation, '_', ' ');
  }

  /** The demonstration pipeline at the end of the module: its last step names `s3` as its
      input, yet its call reads the image of the step just before it. */
  lemma DemoLastStepUsesPreviousImage()
    ensures
      var s5 := Step("connected_components_labeling_box", [LitNum("2")], StepRef(3), true, None);
      CallArgs(s5, 5) == ["image4", "cle.create_like(image4)", "2"]
  {
    var s5 := Step("connected_components_labeling_box", [LitNum("2")], StepRef(3), true, None);
    assert Digit(4) == '4';
    assert ImageName(4) == "image4";
    assert ReprAll(s5.args) == ["2"];
    assert "cle.create_like(" + ImageName(4) + ")" == "cle.create_like(image4)";
  }
}
