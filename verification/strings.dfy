/** The few `str` operations of Python the engine relies on: `split` on one
    character, `join`, `replace`, `lower` on ASCII, `str()` of an integer and
    the whitespace class `\s` of regular expressions. */
module Strings {

  /** Python's `str.split(c)` for a one-character separator: `k` separators
      give `k + 1` parts, empty parts included. */
  function Split(s: string, c: char): (parts: seq<string>)
    ensures |parts| >= 1
  {
    if s == [] then [""]
    else
      var rest := Split(s[1..], c);
      if s[0] == c then [""] + rest else [[s[0]] + rest[0]] + rest[1..]
  }

  /** `c.join(parts)` for a one-character separator. */
  function JoinChar(parts: seq<string>, c: char): string
    requires |parts| >= 1
  {
    if |parts| == 1 then parts[0] else parts[0] + [c] + JoinChar(parts[1..], c)
  }

  /** `sep.join(parts)`. */
  function Join(parts: seq<string>, sep: string): string
  {
    if parts == [] then ""
    else if |parts| == 1 then parts[0]
    else parts[0] + sep + Join(parts[1..], sep)
  }

  /** Number of occurrences of `c` in `s`. */
  function Count(s: string, c: char): nat
  {
    if s == [] then 0 else (if s[0] == c then 1 else 0) + Count(s[1..], c)
  }

  /** The text after the last `c` (all of `s` when `c` does not occur):
      `s.split(c)[-1]`. */
  function LastPart(s: string, c: char): string
  {
    var parts := Split(s, c);
    parts[|parts| - 1]
  }

  /** Python's `s.replace(pat, rep)`: every non-overlapping occurrence of
      `pat`, scanning from the left, is replaced by `rep`. */
  function Replace(s: string, pat: string, rep: string): string
    requires pat != []
    decreases |s|
  {
    if |s| < |pat| then s
    else if pat <= s then rep + Replace(s[|pat|..], pat, rep)
    else [s[0]] + Replace(s[1..], pat, rep)
  }

  /** `s.find(c)`: the first index of `c`, or `-1`. */
  function Find(s: string, c: char): (i: int)
    ensures -1 <= i < |s|
    ensures i >= 0 ==> s[i] == c && c !in s[..i]
    ensures i == -1 <==> c !in s
  {
    if s == [] then -1
    else if s[0] == c then 0
    else
      var j := Find(s[1..], c);
      if j < 0 then -1 else (assert s[..j + 1] == [s[0]] + s[1..][..j]; j + 1)
  }

  /** `s.split(c, 1)[0]`: the text before the first `c`. */
  function Before(s: string, c: char): (r: string)
    ensures c !in r && r <= s
    ensures c in s ==> |r| < |s| && s[|r|] == c
    ensures c !in s ==> r == s
  {
    var i := Find(s, c);
    if i < 0 then s else s[..i]
  }

  /** `pat` occurs somewhere in `s`. */
  predicate Occurs(s: string, pat: string)
  {
    exists i | 0 <= i <= |s| :: OccursAt(s, pat, i)
  }

  /** `pat` occurs in `s` starting at index `i`. */
  predicate OccursAt(s: string, pat: string, i: int)
  {
    0 <= i <= |s| - |pat| && s[i..i + |pat|] == pat
  }

  /** `str.lower()` on ASCII letters; other characters are left alone. */
  function LowerChar(c: char): char
  {
    if 'A' <= c <= 'Z' then (c as int + 32) as char else c
  }

  function Lower(s: string): (r: string)
    ensures |r| == |s| && forall i :: 0 <= i < |s| ==> r[i] == LowerChar(s[i])
  {
    if s == [] then [] else [LowerChar(s[0])] + Lower(s[1..])
  }

  /** The characters `str.isspace()` accepts, which is what `\s` matches in a
      `str` regular expression. */
  predicate IsSpace(c: char)
  {
    var n := c as int;
    (0x09 <= n <= 0x0d) || (0x1c <= n <= 0x20) || n == 0x85 || n == 0xa0 || n == 0x1680
    || (0x2000 <= n <= 0x200a) || n == 0x2028 || n == 0x2029 || n == 0x202f
    || n == 0x205f || n == 0x3000
  }

  function DigitChar(d: nat): char
    requires d < 10
  {
    ('0' as int + d) as char
  }

  function NatToString(n: nat): (r: string)
    ensures |r| >= 1
    decreases n
  {
    if n < 10 then [DigitChar(n)] else NatToString(n / 10) + [DigitChar(n % 10)]
  }

  /** `str(i)` for an integer. */
  function IntToString(i: int): string
  {
    if i < 0 then "-" + NatToString(-i) else NatToString(i)
  }

  /** Joining the parts of a split gives back the string. */
  lemma {:induction false} JoinSplit(s: string, c: char)
    ensures JoinChar(Split(s, c), c) == s
  {
    if s != [] {
      JoinSplit(s[1..], c);
      var rest := Split(s[1..], c);
      if s[0] != c && |rest| > 1 {
        assert JoinChar(rest, c) == rest[0] + [c] + JoinChar(rest[1..], c);
      }
    }
  }

  /** Splitting a join of separator-free parts gives back the parts. */
  lemma {:induction false} SplitJoin(parts: seq<string>, c: char)
    requires |parts| >= 1
    requires forall i :: 0 <= i < |parts| ==> c !in parts[i]
    ensures Split(JoinChar(parts, c), c) == parts
  {
    if |parts| == 1 {
      SplitFree(parts[0], c);
    } else {
      var tail := JoinChar(parts[1..], c);
      assert JoinChar(parts, c) == parts[0] + ([c] + tail) by {
        ConcatAssoc(parts[0], [c], tail);
      }
      SplitJoin(parts[1..], c);
      assert Split([c] + tail, c) == [""] + parts[1..] by {
        assert ([c] + tail)[1..] == tail;
      }
      SplitAppend(parts[0], [c] + tail, c);
      SplitFree(parts[0], c);
      assert Fuse([parts[0]], [""] + parts[1..]) == parts by {
        assert parts[0] + "" == parts[0];
        assert [parts[0]] + parts[1..] == parts;
      }
    }
  }

  /** A string without the separator splits into itself. */
  lemma {:induction false} SplitFree(s: string, c: char)
    requires c !in s
    ensures Split(s, c) == [s]
  {
    if s != [] {
      SplitFree(s[1..], c);
      assert [s[0]] + s[1..] == s;
    }
  }

  /** `split` of a string given by its first character and the rest. */
  lemma SplitCons(x: char, t: string, c: char)
    ensures var rest := Split(t, c);
      Split([x] + t, c) == if x == c then [""] + rest else [[x] + rest[0]] + rest[1..]
  {
    assert ([x] + t)[1..] == t;
  }

  /** How `split` distributes over concatenation: the last part of `a`
      fuses with the first part of `b`. */
  lemma {:induction false} SplitAppend(a: string, b: string, c: char)
    ensures Split(a + b, c) == Fuse(Split(a, c), Split(b, c))
  {
    if a == [] {
      var pb := Split(b, c);
      assert a + b == b;
      assert "" + pb[0] == pb[0];
      assert Fuse([""], pb) == [pb[0]] + pb[1..] == pb;
    } else {
      var a' := a[1..];
      assert a == [a[0]] + a';
      assert a + b == [a[0]] + (a' + b);
      SplitAppend(a', b, c);
      SplitCons(a[0], a', c);
      SplitCons(a[0], a' + b, c);
      FuseCons(a[0], Split(a', c), Split(b, c), c);
    }
  }

  /** The parts of `a + b` from the parts of `a` and of `b`. */
  function Fuse(pa: seq<string>, pb: seq<string>): seq<string>
    requires |pa| >= 1 && |pb| >= 1
  {
    pa[..|pa| - 1] + [pa[|pa| - 1] + pb[0]] + pb[1..]
  }

  /** Prepending a character commutes with fusing. */
  lemma FuseCons(x: char, pa: seq<string>, pb: seq<string>, c: char)
    requires |pa| >= 1 && |pb| >= 1
    ensures var f := Fuse(pa, pb);
      Fuse(if x == c then [""] + pa else [[x] + pa[0]] + pa[1..], pb)
      == if x == c then [""] + f else [[x] + f[0]] + f[1..]
  {
    var n := |pa|;
    if x != c && n > 1 {
      var q := [[x] + pa[0]] + pa[1..];
      assert q[..n - 1] == [[x] + pa[0]] + pa[1..n - 1];
    } else if x == c {
      var q := [""] + pa;
      assert q[..n] == [""] + pa[..n - 1];
      assert q[n] == pa[n - 1];
      assert Fuse(q, pb) == q[..n] + [q[n] + pb[0]] + pb[1..];
      assert Fuse(q, pb) == [""] + (pa[..n - 1] + [pa[n - 1] + pb[0]] + pb[1..]);
      assert Fuse(q, pb) == [""] + Fuse(pa, pb);
    } else {
      var f := Fuse(pa, pb);
      assert f == [pa[0] + pb[0]] + pb[1..];
      assert ([x] + pa[0]) + pb[0] == [x] + (pa[0] + pb[0]);
      assert Fuse([[x] + pa[0]], pb) == [[x] + f[0]] + f[1..];
    }
  }

  /** The separator count fixes the number of parts. */
  lemma {:induction false} SplitCount(s: string, c: char)
    ensures |Split(s, c)| == Count(s, c) + 1
  {
    if s != [] {
      SplitCount(s[1..], c);
    }
  }

  /** No part of a split contains the separator. */
  lemma {:induction false} SplitPartsFree(s: string, c: char)
    ensures forall i :: 0 <= i < |Split(s, c)| ==> c !in Split(s, c)[i]
  {
    if s != [] {
      SplitPartsFree(s[1..], c);
    }
  }

  /** A string with exactly one separator splits into the text before it and
      the text after it. */
  lemma SplitAtOne(a: string, b: string, c: char)
    requires c !in a && c !in b
    ensures Split(a + [c] + b, c) == [a, b]
  {
    SplitFree(a, c);
    SplitFree(b, c);
    assert Split([c] + b, c) == [""] + [b] by {
      assert ([c] + b)[1..] == b;
    }
    SplitAppend(a, [c] + b, c);
    assert a + "" == a;
    assert Fuse([a], [""] + [b]) == [a, b];
    assert a + [c] + b == a + ([c] + b);
  }

  /** `replace` leaves a string without the pattern unchanged. */
  lemma {:induction false} ReplaceAbsent(s: string, pat: string, rep: string)
    requires pat != []
    requires !Occurs(s, pat)
    ensures Replace(s, pat, rep) == s
    decreases |s|
  {
    if |s| >= |pat| {
      if pat <= s {
        assert OccursAt(s, pat, 0);
        assert false;
      }
      if Occurs(s[1..], pat) {
        var i :| 0 <= i <= |s[1..]| && OccursAt(s[1..], pat, i);
        assert s[1..][i..i + |pat|] == s[i + 1..i + 1 + |pat|];
        assert OccursAt(s, pat, i + 1);
        assert false;
      }
      ReplaceAbsent(s[1..], pat, rep);
    }
  }

  /** The text after the last separator, when the separator is followed by
      a separator-free tail. */
  lemma LastPartAfter(x: string, tail: string, c: char)
    requires c !in tail
    ensures LastPart(x + [c] + tail, c) == tail
  {
    SplitFree(tail, c);
    assert Split([c], c) == ["", ""] by {
      assert [c][1..] == "";
    }
    SplitAppend(x, [c], c);
    SplitAppend(x + [c], tail, c);
    var px := Split(x + [c], c);
    assert px[|px| - 1] == "";
    assert "" + tail == tail;
  }

  /** The first occurrence of `c` right after a `c`-free prefix. */
  lemma FindAfter(x: string, c: char, y: string)
    requires c !in x
    ensures Find(x + [c] + y, c) == |x|
  {
    var s := x + [c] + y;
    assert s[|x|] == c;
    assert s[..|x|] == x;
  }

  /** A prefix made of characters that cannot begin `rep` survives
      `replace` only where it was already there. */
  lemma {:induction false} PrefixThroughReplace(t: string, pat: string, rep: string, w: string)
    requires pat != [] && rep != []
    requires forall k :: 0 <= k < |w| ==> w[k] != rep[0]
    requires w <= Replace(t, pat, rep)
    ensures w <= t
    decreases |t|
  {
    if w != [] && |t| >= |pat| {
      assert w[0] == Replace(t, pat, rep)[0];
      assert !(pat <= t);
      var r := Replace(t[1..], pat, rep);
      assert Replace(t, pat, rep) == [t[0]] + r;
      assert w[1..] <= r;
      PrefixThroughReplace(t[1..], pat, rep, w[1..]);
      assert w == [w[0]] + w[1..];
    }
  }

  /** An occurrence past a prefix is an occurrence in the rest. */
  lemma OccursShift(a: string, b: string, pat: string, p: int)
    requires |a| <= p
    ensures OccursAt(a + b, pat, p) <==> OccursAt(b, pat, p - |a|)
  {
    if 0 <= p - |a| <= |b| - |pat| {
      assert (a + b)[p..p + |pat|] == b[p - |a|..p - |a| + |pat|];
    }
  }

  /** An occurrence starts with the pattern's first character. */
  lemma OccursAtHead(s: string, pat: string, p: int)
    requires pat != [] && 0 <= p < |s|
    ensures OccursAt(s, pat, p) ==> s[p] == pat[0]
  {
    if OccursAt(s, pat, p) {
      assert s[p..p + |pat|][0] == s[p];
    }
  }

  /** A first character kept by `replace` starts an occurrence only when
      the pattern already started there. */
  lemma HeadOccurrence(s: string, pat: string, rep: string)
    requires pat != [] && rep != [] && s != []
    requires forall k :: 1 <= k < |pat| ==> pat[k] != rep[0]
    ensures OccursAt([s[0]] + Replace(s[1..], pat, rep), pat, 0) ==> pat <= s
  {
    var tail := Replace(s[1..], pat, rep);
    var r := [s[0]] + tail;
    if OccursAt(r, pat, 0) {
      assert r[..|pat|] == pat;
      assert tail[..|pat| - 1] == r[1..|pat|];
      PrefixThroughReplace(s[1..], pat, rep, pat[1..]);
      assert pat == [s[0]] + pat[1..];
      assert s[..|pat|] == [s[0]] + s[1..][..|pat| - 1];
    }
  }

  /** `replace` leaves no occurrence of the pattern when the replacement
      does not contain the pattern's first character and does not start
      with any of its other characters. */
  lemma {:induction false} ReplaceLeavesNone(s: string, pat: string, rep: string)
    requires pat != [] && rep != [] && pat[0] !in rep
    requires forall k :: 1 <= k < |pat| ==> pat[k] != rep[0]
    ensures !Occurs(Replace(s, pat, rep), pat)
    decreases |s|
  {
    var r := Replace(s, pat, rep);
    if |s| >= |pat| {
      if pat <= s {
        var tail := Replace(s[|pat|..], pat, rep);
        ReplaceLeavesNone(s[|pat|..], pat, rep);
        assert r == rep + tail;
        forall p | 0 <= p < |rep| ensures !OccursAt(r, pat, p) {
          OccursAtHead(r, pat, p);
          assert r[p] == rep[p] && rep[p] in rep;
        }
        forall p | |rep| <= p <= |r| ensures !OccursAt(r, pat, p) {
          OccursShift(rep, tail, pat, p);
        }
      } else {
        var tail := Replace(s[1..], pat, rep);
        ReplaceLeavesNone(s[1..], pat, rep);
        assert r == [s[0]] + tail;
        HeadOccurrence(s, pat, rep);
        forall p | 1 <= p <= |r| ensures !OccursAt(r, pat, p) {
          OccursShift([s[0]], tail, pat, p);
        }
      }
    }
  }

  /** Concatenation regrouped; stated on its own so that proofs in a large
      context need not rediscover it. */
  lemma ConcatAssoc<T>(x: seq<T>, y: seq<T>, z: seq<T>)
    ensures x + y + z == x + (y + z)
  {
  }

  /** Every part preceded by `sep`: the tail of a join. */
  function Prefixed(parts: seq<string>, sep: string): string
  {
    if parts == [] then "" else sep + parts[0] + Prefixed(parts[1..], sep)
  }

  /** A join is its first part followed by the others, each after `sep`. */
  lemma {:induction false} JoinPrefixed(parts: seq<string>, sep: string)
    requires parts != []
    ensures Join(parts, sep) == parts[0] + Prefixed(parts[1..], sep)
    decreases |parts|
  {
    if |parts| == 1 {
      assert parts[1..] == [];
      assert parts[0] + "" == parts[0];
    } else {
      JoinPrefixed(parts[1..], sep);
      assert parts[1..][1..] == parts[2..];
    }
  }

  lemma {:induction false} PrefixedAppend(a: seq<string>, b: seq<string>, sep: string)
    ensures Prefixed(a + b, sep) == Prefixed(a, sep) + Prefixed(b, sep)
    decreases |a|
  {
    if a == [] {
      assert a + b == b;
    } else {
      assert (a + b)[1..] == a[1..] + b;
      PrefixedAppend(a[1..], b, sep);
    }
  }
}
