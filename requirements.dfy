/** The requirements list of `setup.py`: one entry per line of requirements.txt, the text
    before the first '#' with surrounding whitespace stripped, blank results dropped. */
module Requirements {
  import opened Strings

  /** What a line contributes before the emptiness test: `line.split("#")[0].strip()`. */
  function Stripped(line: string): string
  {
    StripRight(StripLeft(BeforeFirst(line, '#')))
  }

  /** A stripped line holds no '#' and neither starts nor ends with whitespace. */
  lemma StrippedClean(line: string)
    ensures var r := Stripped(line);
      '#' !in r && (|r| > 0 ==> !IsSpace(r[0]) && !IsSpace(r[|r| - 1]))
  {
    var before := BeforeFirst(line, '#');
    var left := StripLeft(before);
    StripRightKeepsFirst(left);
    StripKeepsOut(before, '#');
  }

  /** Stripping the right end keeps the first character. */
  lemma StripRightKeepsFirst(s: string)
    ensures var r := StripRight(s); |r| > 0 ==> r[0] == s[0]
  {
  }

  /** Stripping adds no character. */
  lemma StripKeepsOut(s: string, c: char)
    requires c !in s
    ensures c !in StripRight(StripLeft(s))
  {
    var left := StripLeft(s);
    assert forall i :: 0 <= i < |left| ==> left[i] == s[|s| - |left| + i];
    var r := StripRight(left);
    assert forall i :: 0 <= i < |r| ==> r[i] == left[i];
  }

  /** Every line, stripped. */
  function Entries(lines: seq<string>): (r: seq<string>)
    ensures |r| == |lines| && forall i :: 0 <= i < |lines| ==> r[i] == Stripped(lines[i])
  {
    Map(Stripped, lines)
  }

  /** `f` applied to every item, in order. */
  function Map<T, U>(f: T -> U, s: seq<T>): (r: seq<U>)
    ensures |r| == |s| && forall i :: 0 <= i < |s| ==> r[i] == f(s[i])
  {
    seq(|s|, i requires 0 <= i < |s| => f(s[i]))
  }

  lemma MapConcat<T, U>(f: T -> U, a: seq<T>, b: seq<T>)
    ensures Map(f, a + b) == Map(f, a) + Map(f, b)
  {
    var l, r := Map(f, a + b), Map(f, a) + Map(f, b);
    forall i | 0 <= i < |a + b| ensures l[i] == r[i] {
      if i < |a| {
        assert (a + b)[i] == a[i];
      } else {
        assert (a + b)[i] == b[i - |a|];
      }
    }
  }

  /** The non-empty entries, in order. */
  function Kept(es: seq<string>): seq<string>
  {
    if es == [] then []
    else Kept(es[..|es| - 1]) + (if |es[|es| - 1]| > 0 then [es[|es| - 1]] else [])
  }

  /** The requirements of the lines `lines`, in file order. */
  function RequirementsOf(lines: seq<string>): seq<string>
  {
    Kept(Entries(lines))
  }

  /** The loop of `setup.py` over the lines of requirements.txt. */
  method ReadRequirements(lines: seq<string>) returns (requirements: seq<string>)
    ensures requirements == RequirementsOf(lines)
  {
    requirements := [];
    ghost var es := Entries(lines);
    for i := 0 to |lines|
      invariant requirements == Kept(es[..i])
    {
      assert es[..i + 1][..i] == es[..i];
      var stripped := Stripped(lines[i]);
      if |stripped| > 0 {
        requirements := requirements + [stripped];
      }
    }
    assert es[..|lines|] == es;
  }

  lemma {:induction false} KeptMembers(es: seq<string>, r: string)
    ensures r in Kept(es) <==> |r| > 0 && r in es
    decreases |es|
  {
    if es != [] {
      var init := es[..|es| - 1];
      KeptMembers(init, r);
      assert es == init + [es[|es| - 1]];
    }
  }

  lemma {:induction false} KeptConcat(a: seq<string>, b: seq<string>)
    ensures Kept(a + b) == Kept(a) + Kept(b)
    decreases |b|
  {
    if b == [] {
      assert a + b == a;
    } else {
      var b' := b[..|b| - 1];
      assert (a + b)[..|a + b| - 1] == a + b';
      assert (a + b)[|a + b| - 1] == b[|b| - 1];
      KeptConcat(a, b');
    }
  }

  /** No kept entry is empty, holds a '#', or starts or ends with whitespace. */
  lemma RequirementsClean(lines: seq<string>)
    ensures forall r :: r in RequirementsOf(lines) ==>
      |r| > 0 && '#' !in r && !IsSpace(r[0]) && !IsSpace(r[|r| - 1])
  {
    forall r | r in RequirementsOf(lines)
      ensures |r| > 0 && '#' !in r && !IsSpace(r[0]) && !IsSpace(r[|r| - 1])
    {
      KeptMembers(Entries(lines), r);
      var i :| 0 <= i < |lines| && Entries(lines)[i] == r;
      StrippedClean(lines[i]);
    }
  }

  /** Reading two parts of a file one after the other gives the requirements of the first
      part followed by those of the second: the entries keep file order. */
  lemma RequirementsConcat(a: seq<string>, b: seq<string>)
    ensures RequirementsOf(a + b) == RequirementsOf(a) + RequirementsOf(b)
  {
    MapConcat(Stripped, a, b);
    KeptConcat(Entries(a), Entries(b));
  }

  /** An entry is kept exactly when some line strips to it and it is not empty. */
  lemma RequirementsMembers(lines: seq<string>, r: string)
    ensures r in RequirementsOf(lines) <==> |r| > 0 && exists i :: 0 <= i < |lines| && Stripped(lines[i]) == r
  {
    KeptMembers(Entries(lines), r);
    if r in Entries(lines) {
      var i :| 0 <= i < |lines| && Entries(lines)[i] == r;
    }
  }

  /** A line of whitespace only, or whitespace up to a '#' (a full-line comment), strips to
      nothing and is dropped. */
  lemma CommentLineDropped(line: string, k: nat)
    requires k <= |line| && (k < |line| ==> line[k] == '#')
    requires forall j :: 0 <= j < k ==> IsSpace(line[j])
    ensures Stripped(line) == ""
    ensures RequirementsOf([line]) == []
  {
    var before := BeforeFirst(line, '#');
    assert |before| <= k;
    AllSpaceStripsLeft(before);
    assert Entries([line]) == [""];
    assert [""][..0] == [];
  }

  lemma {:induction false} AllSpaceStripsLeft(s: string)
    requires forall j :: 0 <= j < |s| ==> IsSpace(s[j])
    ensures StripLeft(s) == ""
    decreases |s|
  {
    if |s| > 0 {
      AllSpaceStripsLeft(s[1..]);
    }
  }
}
