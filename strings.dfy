/** Python string operations used by the code generators, written out over seq<char>. */
module Strings {

  /** The decimal digit for d. */
  function Digit(d: nat): (c: char)
    requires d < 10
    ensures '0' <= c <= '9'
  {
    (48 + d) as char
  }

  /** Python's str() of a non-negative int: decimal digits, most significant first. */
  function NatToString(n: nat): (s: string)
    ensures |s| >= 1
    ensures forall k :: 0 <= k < |s| ==> '0' <= s[k] <= '9'
    ensures n < 10 <==> |s| == 1
  {
    if n < 10 then [Digit(n)] else NatToString(n / 10) + [Digit(n % 10)]
  }

  /** Python's str() of an int: a leading '-' for negative numbers. */
  function IntToString(i: int): (s: string)
    ensures |s| >= 1
    ensures (s[0] == '-') <==> i < 0
  {
    if i < 0 then "-" + NatToString(-i) else NatToString(i)
  }

  lemma {:induction false} NatToStringInjective(a: nat, b: nat)
    requires NatToString(a) == NatToString(b)
    ensures a == b
  {
    if a >= 10 && b >= 10 {
      var sa, sb := NatToString(a), NatToString(b);
      assert sa[..|sa| - 1] == NatToString(a / 10);
      assert sb[..|sb| - 1] == NatToString(b / 10);
      NatToStringInjective(a / 10, b / 10);
      assert Digit(a % 10) == sa[|sa| - 1] == sb[|sb| - 1] == Digit(b % 10);
    } else if a < 10 && b < 10 {
      assert Digit(a) == NatToString(a)[0];
    }
  }

  /** Distinct integers print as distinct strings. */
  lemma IntToStringInjective(a: int, b: int)
    requires IntToString(a) == IntToString(b)
    ensures a == b
  {
    if a < 0 && b < 0 {
      assert NatToString(-a) == IntToString(a)[1..];
      assert NatToString(-b) == IntToString(b)[1..];
      NatToStringInjective(-a, -b);
    } else if a >= 0 && b >= 0 {
      NatToStringInjective(a, b);
    }
  }

  predicate StartsWith(s: string, prefix: string)
  {
    |prefix| <= |s| && s[..|prefix|] == prefix
  }

  /** Python's str.endswith. */
  predicate EndsWith(s: string, suffix: string)
  {
    |suffix| <= |s| && s[|s| - |suffix|..] == suffix
  }

  /** Python's `sub in s`. */
  predicate Contains(s: string, sub: string)
    decreases |s|
  {
    StartsWith(s, sub) || (|s| > 0 && Contains(s[1..], sub))
  }

  /** A string contains every one of its own pieces. */
  lemma {:induction false} ContainsConcat(a: string, sub: string, b: string)
    ensures Contains(a + sub + b, sub)
    decreases |a|
  {
    if |a| == 0 {
      assert a + sub + b == sub + b;
      assert (sub + b)[..|sub|] == sub;
    } else {
      assert (a + sub + b)[1..] == a[1..] + sub + b;
      ContainsConcat(a[1..], sub, b);
    }
  }

  /** Python's str.replace(pat, repl): every non-overlapping occurrence, left to right. */
  function ReplaceAll(s: string, pat: string, repl: string): (r: string)
    requires |pat| > 0
    decreases |s|
  {
    if |s| == 0 then ""
    else if StartsWith(s, pat) then repl + ReplaceAll(s[|pat|..], pat, repl)
    else [s[0]] + ReplaceAll(s[1..], pat, repl)
  }

  /** A text that does not contain the pattern is left as it is. */
  lemma {:induction false} ReplaceAbsent(s: string, pat: string, repl: string)
    requires |pat| > 0
    ensures !Contains(s, pat) ==> ReplaceAll(s, pat, repl) == s
    decreases |s|
  {
    if |s| > 0 && !Contains(s, pat) {
      ReplaceAbsent(s[1..], pat, repl);
      assert [s[0]] + s[1..] == s;
    }
  }

  /** What replacing a character by another character guarantees. */
  lemma ReplaceCharFacts(s: string, c: char, d: char)
    requires c != d
    ensures c !in ReplaceAll(s, [c], [d])
    ensures |ReplaceAll(s, [c], [d])| == |s|
    ensures c !in s ==> ReplaceAll(s, [c], [d]) == s
  {
    ReplaceCharRemoves(s, c, [d]);
    ReplaceCharLength(s, c, d);
    if c !in s {
      ReplaceCharAbsent(s, c, [d]);
    }
  }

  /** A prefix none of whose characters starts the pattern passes through unchanged. */
  lemma {:induction false} ReplaceAfterPrefix(p: string, s: string, pat: string, repl: string)
    requires |pat| > 0
    requires forall k :: 0 <= k < |p| ==> p[k] != pat[0]
    ensures ReplaceAll(p + s, pat, repl) == p + ReplaceAll(s, pat, repl)
    decreases |p|
  {
    if |p| > 0 {
      assert (p + s)[0] == p[0];
      assert !StartsWith(p + s, pat);
      assert (p + s)[1..] == p[1..] + s;
      ReplaceAfterPrefix(p[1..], s, pat, repl);
      assert [p[0]] + (p[1..] + ReplaceAll(s, pat, repl)) == p + ReplaceAll(s, pat, repl);
    } else {
      assert p + s == s;
    }
  }

  /** Replacing one character works piecewise over a concatenation. */
  lemma {:induction false} ReplaceCharConcat(a: string, b: string, c: char, repl: string)
    ensures ReplaceAll(a + b, [c], repl) == ReplaceAll(a, [c], repl) + ReplaceAll(b, [c], repl)
    decreases |a|
  {
    if |a| > 0 {
      assert (a + b)[1..] == a[1..] + b;
      ReplaceCharConcat(a[1..], b, c, repl);
    } else {
      assert a + b == b;
    }
  }

  /** Replacing one character by another brings in no third character. */
  lemma {:induction false} ReplaceCharKeepsOut(s: string, c: char, d: char, e: char)
    requires e !in s && e != d
    ensures e !in ReplaceAll(s, [c], [d])
    decreases |s|
  {
    if |s| > 0 {
      ReplaceCharKeepsOut(s[1..], c, d, e);
      assert s[0] in s;
    }
  }

  /** A text without the replaced character is left as it is. */
  lemma {:induction false} ReplaceCharAbsent(s: string, c: char, repl: string)
    requires c !in s
    ensures ReplaceAll(s, [c], repl) == s
    decreases |s|
  {
    if |s| > 0 {
      assert s[0] != c;
      ReplaceCharAbsent(s[1..], c, repl);
      assert [s[0]] + s[1..] == s;
    }
  }

  /** After replacing c by a text without c, no c is left. */
  lemma {:induction false} ReplaceCharRemoves(s: string, c: char, repl: string)
    requires c !in repl
    ensures c !in ReplaceAll(s, [c], repl)
    decreases |s|
  {
    if |s| > 0 {
      ReplaceCharRemoves(s[1..], c, repl);
    }
  }

  /** Replacing a character by one character keeps the length. */
  lemma {:induction false} ReplaceCharLength(s: string, c: char, d: char)
    ensures |ReplaceAll(s, [c], [d])| == |s|
    decreases |s|
  {
    if |s| > 0 {
      ReplaceCharLength(s[1..], c, d);
    }
  }

  lemma AppendAssoc(a: string, b: string, c: string)
    ensures (a + b) + c == a + (b + c)
  {
  }

  lemma StartsWithConcat(a: string, b: string)
    ensures StartsWith(a + b, a)
  {
    assert (a + b)[..|a|] == a;
  }

  lemma EndsWithConcat(a: string, b: string)
    ensures EndsWith(a + b, b)
  {
    assert (a + b)[|a|..] == b;
  }

  lemma StartsWithTrans(s: string, t: string, u: string)
    requires StartsWith(s, t) && StartsWith(t, u)
    ensures StartsWith(s, u)
  {
    assert s[..|u|] == t[..|u|];
  }

  /** t occurs in s starting at position p. */
  predicate OccursAt(s: string, t: string, p: int)
  {
    0 <= p && p + |t| <= |s| && s[p..p + |t|] == t
  }

  lemma OccursAtShift(a: string, s: string, b: string, t: string, p: int)
    requires OccursAt(s, t, p)
    ensures OccursAt(a + s + b, t, |a| + p)
  {
    assert (a + s + b)[|a| + p..|a| + p + |t|] == s[p..p + |t|];
  }

  lemma OccursAtNested(s: string, u: string, p: int, t: string, q: int)
    requires OccursAt(s, u, p) && OccursAt(u, t, q)
    ensures OccursAt(s, t, p + q)
  {
    forall i | 0 <= i < |t|
      ensures s[p + q..p + q + |t|][i] == t[i]
    {
      assert t[i] == u[q + i] == s[p + q + i];
    }
  }

  /** Text t inside a part u of s occurs in s, within the bounds of u. */
  lemma NestedBounds(s: string, u: string, p: int, t: string, q: int, at: int)
    requires OccursAt(s, u, p) && OccursAt(u, t, q) && at == p + q
    ensures OccursAt(s, t, at) && p <= at && at + |t| <= p + |u|
  {
    OccursAtNested(s, u, p, t, q);
  }

  lemma EndsWithTrans(s: string, t: string, u: string)
    requires EndsWith(s, t) && EndsWith(t, u)
    ensures EndsWith(s, u)
  {
    assert s[|s| - |u|..] == t[|t| - |u|..];
  }

  lemma TakeSnoc<T>(s: seq<T>, i: nat)
    requires i < |s|
    ensures s[..i + 1] == s[..i] + [s[i]]
  {
  }

  lemma DropCons<T>(s: seq<T>, i: nat)
    requires i < |s|
    ensures s[i..] == [s[i]] + s[i + 1..]
  {
  }

  /** Python's sep.join(parts). */
  function Join(sep: string, parts: seq<string>): (r: string)
    decreases |parts|
  {
    if |parts| == 0 then ""
    else if |parts| == 1 then parts[0]
    else parts[0] + sep + Join(sep, parts[1..])
  }

  /** Joining one more part at the end. */
  lemma {:induction false} JoinSnoc(sep: string, parts: seq<string>, p: string)
    ensures Join(sep, parts + [p]) == if |parts| == 0 then p else Join(sep, parts) + sep + p
    decreases |parts|
  {
    if |parts| > 1 {
      assert (parts + [p])[1..] == parts[1..] + [p];
      JoinSnoc(sep, parts[1..], p);
    } else if |parts| == 1 {
      assert (parts + [p])[1..] == [p];
    }
  }

  /** A joined text starts with its first part. */
  lemma JoinStartsWithFirst(sep: string, parts: seq<string>)
    requires |parts| > 0
    ensures StartsWith(Join(sep, parts), parts[0])
  {
    if |parts| > 1 {
      assert Join(sep, parts) == parts[0] + (sep + Join(sep, parts[1..]));
    }
  }

  /** The characters Python's str.strip() removes, those for which str.isspace() holds:
      tab to carriage return, the four information separators, the space, next line, the
      no-break space, and the Unicode space and line/paragraph separators. */
  predicate IsSpace(c: char)
  {
    || '\U{9}' <= c <= '\U{D}'
    || '\U{1C}' <= c <= '\U{20}'
    || c == '\U{85}' || c == '\U{A0}' || c == '\U{1680}'
    || '\U{2000}' <= c <= '\U{200A}'
    || c == '\U{2028}' || c == '\U{2029}' || c == '\U{202F}' || c == '\U{205F}' || c == '\U{3000}'
  }

  function StripLeft(s: string): (r: string)
    ensures |r| <= |s| && r == s[|s| - |r|..]
    ensures |r| > 0 ==> !IsSpace(r[0])
    ensures forall k :: 0 <= k < |s| - |r| ==> IsSpace(s[k])
    decreases |s|
  {
    if |s| > 0 && IsSpace(s[0]) then StripLeft(s[1..]) else s
  }

  function StripRight(s: string): (r: string)
    ensures |r| <= |s| && r == s[..|r|]
    ensures |r| > 0 ==> !IsSpace(r[|r| - 1])
    ensures forall k :: |r| <= k < |s| ==> IsSpace(s[k])
    decreases |s|
  {
    if |s| > 0 && IsSpace(s[|s| - 1]) then StripRight(s[..|s| - 1]) else s
  }

  /** Python's str.strip(): surrounding whitespace removed. */
  function Strip(s: string): string
  {
    StripRight(StripLeft(s))
  }

  /** The part of s before the first c, i.e. Python's s.split(c)[0]. */
  function BeforeFirst(s: string, c: char): (r: string)
    ensures c !in r
    ensures |r| <= |s| && r == s[..|r|]
    ensures |r| < |s| ==> s[|r|] == c
    decreases |s|
  {
    if |s| == 0 then ""
    else if s[0] == c then ""
    else [s[0]] + BeforeFirst(s[1..], c)
  }

  function LowerChar(c: char): char
  {
    if 'A' <= c <= 'Z' then (c as int + 32) as char else c
  }

  /** Python's str.lower() on ASCII letters. */
  function Lower(s: string): (r: string)
    ensures |r| == |s|
  {
    seq(|s|, k requires 0 <= k < |s| => LowerChar(s[k]))
  }
}
