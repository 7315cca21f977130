/**
 * ASCII string utilities on `seq<char>`, standing for the parts of Go's
 * `strings` and `fmt` packages that the modelled code calls.  Case
 * conversion touches only 'A'..'Z' and 'a'..'z'.
 */
module Str {

  predicate IsUpper(c: char) { 'A' <= c <= 'Z' }
  predicate IsLowerLetter(c: char) { 'a' <= c <= 'z' }

  function Lower(c: char): (r: char)
    ensures !IsUpper(r)
    ensures IsUpper(c) ==> r as int == c as int + 32
    ensures !IsUpper(c) ==> r == c
  {
    if IsUpper(c) then (c as int + 32) as char else c
  }

  function Upper(c: char): (r: char)
    ensures !IsLowerLetter(r)
    ensures IsLowerLetter(c) ==> r as int == c as int - 32
    ensures !IsLowerLetter(c) ==> r == c
  {
    if IsLowerLetter(c) then (c as int - 32) as char else c
  }

  /** strings.ToLower, restricted to ASCII letters. */
  function ToLower(s: string): (r: string)
    ensures |r| == |s|
    ensures forall i :: 0 <= i < |s| ==> r[i] == Lower(s[i])
  {
    seq(|s|, i requires 0 <= i < |s| => Lower(s[i]))
  }

  /** strings.ToUpper, restricted to ASCII letters. */
  function ToUpper(s: string): (r: string)
    ensures |r| == |s|
    ensures forall i :: 0 <= i < |s| ==> r[i] == Upper(s[i])
  {
    seq(|s|, i requires 0 <= i < |s| => Upper(s[i]))
  }

  lemma ToLowerAppend(a: string, b: string)
    ensures ToLower(a + b) == ToLower(a) + ToLower(b)
  {
    assert ToLower(a + b) == ToLower(a) + ToLower(b);
  }

  predicate HasPrefix(s: string, p: string) { |p| <= |s| && s[..|p|] == p }
  predicate HasSuffix(s: string, p: string) { |p| <= |s| && s[|s| - |p|..] == p }

  /** strings.TrimPrefix: removes one leading `p` when present. */
  function TrimPrefix(s: string, p: string): (r: string)
    ensures HasPrefix(s, p) ==> s == p + r
    ensures !HasPrefix(s, p) ==> r == s
  {
    if HasPrefix(s, p) then s[|p|..] else s
  }

  /** strings.TrimSuffix: removes one trailing `p` when present. */
  function TrimSuffix(s: string, p: string): (r: string)
    ensures HasSuffix(s, p) ==> s == r + p
    ensures !HasSuffix(s, p) ==> r == s
  {
    if HasSuffix(s, p) then s[..|s| - |p|] else s
  }

  /** `w` occurs in `s` starting at index `i`. */
  predicate OccursAt(s: string, w: string, i: int)
  {
    0 <= i && i + |w| <= |s| && s[i..i + |w|] == w
  }

  /** The first index at or after `k` where `w` occurs, or -1. */
  function IndexFrom(s: string, w: string, k: nat): (r: int)
    decreases |s| - k
    ensures r == -1 || (k <= r && OccursAt(s, w, r))
    ensures r == -1 ==> forall j :: k <= j ==> !OccursAt(s, w, j)
    ensures r != -1 ==> forall j :: k <= j < r ==> !OccursAt(s, w, j)
  {
    if k + |w| > |s| then -1
    else if s[k..k + |w|] == w then k
    else IndexFrom(s, w, k + 1)
  }

  /** strings.Index: the first occurrence of `w` in `s`, or -1. */
  function IndexOf(s: string, w: string): (r: int)
    ensures r == -1 || OccursAt(s, w, r)
    ensures r == -1 <==> forall j :: !OccursAt(s, w, j)
    ensures r != -1 ==> forall j :: 0 <= j < r ==> !OccursAt(s, w, j)
  {
    IndexFrom(s, w, 0)
  }

  /** strings.Contains. */
  predicate Contains(s: string, w: string)
  {
    exists i :: 0 <= i <= |s| - |w| && OccursAt(s, w, i)
  }

  /** Contains agrees with Index: the text contains `w` exactly when Index finds it. */
  lemma ContainsIndexOf(s: string, w: string)
    ensures Contains(s, w) <==> IndexOf(s, w) != -1
  {
    if IndexOf(s, w) != -1 {
      assert OccursAt(s, w, IndexOf(s, w));
    }
  }

  lemma ContainsAt(s: string, w: string, i: int)
    requires OccursAt(s, w, i)
    ensures Contains(s, w)
  {
  }

  lemma ContainsInfix(a: string, w: string, b: string)
    ensures Contains(a + w + b, w)
  {
    assert (a + w + b)[|a|..|a| + |w|] == w;
    ContainsAt(a + w + b, w, |a|);
  }

  lemma ContainsSelf(w: string)
    ensures Contains(w, w)
  {
    assert w[0..|w|] == w;
    ContainsAt(w, w, 0);
  }

  /** What a text contains, the text with more after it contains too. */
  lemma ContainsBefore(a: string, b: string, w: string)
    requires Contains(a, w)
    ensures Contains(a + b, w)
  {
    var i :| 0 <= i <= |a| - |w| && OccursAt(a, w, i);
    assert (a + b)[i..i + |w|] == a[i..i + |w|];
    ContainsAt(a + b, w, i);
  }

  /** What a text contains, the text with more before it contains too. */
  lemma ContainsAfter(a: string, b: string, w: string)
    requires Contains(b, w)
    ensures Contains(a + b, w)
  {
    var i :| 0 <= i <= |b| - |w| && OccursAt(b, w, i);
    assert (a + b)[|a| + i..|a| + i + |w|] == b[i..i + |w|];
    ContainsAt(a + b, w, |a| + i);
  }

  /** Inserting text at a character the word lacks keeps every occurrence of the word. */
  lemma InsertKeeps(s: string, e: int, ins: string, w: string)
    requires 0 <= e < |s| && s[e] !in w && Contains(s, w)
    ensures Contains(s[..e] + ins + s[e..], w)
  {
    var i :| 0 <= i <= |s| - |w| && OccursAt(s, w, i);
    forall k | i <= k < i + |w|
      ensures s[k] in w
    {
      assert s[k] == s[i..i + |w|][k - i];
    }
    assert !(i < e < i + |w|);
    InsertKeepsAt(s, e, ins, w, i);
  }

  /** Inserting at `e` keeps an occurrence of `w` that lies wholly before or wholly after `e`. */
  lemma InsertKeepsAt(s: string, e: int, ins: string, w: string, i: int)
    requires 0 <= e <= |s| && OccursAt(s, w, i) && (i + |w| <= e || e <= i)
    ensures Contains(s[..e] + ins + s[e..], w)
  {
    AppendAssoc(s[..e], ins, s[e..]);
    if e <= i {
      forall k | 0 <= k < |w|
        ensures s[e..][i - e + k] == w[k]
      {
        assert w[k] == s[i..i + |w|][k];
      }
      assert s[e..][i - e..i - e + |w|] == w;
      ContainsAt(s[e..], w, i - e);
      ContainsAfter(s[..e] + ins, s[e..], w);
    } else {
      forall k | 0 <= k < |w|
        ensures s[..e][i + k] == w[k]
      {
        assert w[k] == s[i..i + |w|][k];
      }
      assert s[..e][i..i + |w|] == w;
      ContainsAt(s[..e], w, i);
      ContainsBefore(s[..e], ins + s[e..], w);
    }
  }

  /** A text that lacks one of the characters of `w` does not contain `w`. */
  lemma LacksChar(s: string, w: string, k: int)
    requires 0 <= k < |w| && w[k] !in s
    ensures !Contains(s, w)
  {
    forall i | 0 <= i <= |s| - |w|
      ensures !OccursAt(s, w, i)
    {
      assert s[i..i + |w|][k] == s[i + k];
    }
  }


  /** strings.Replace(s, old, new, 1) for a non-empty `old`. */
  function ReplaceFirst(s: string, target: string, repl: string): (r: string)
    ensures !Contains(s, target) ==> r == s
    ensures Contains(s, target) ==>
      r == s[..IndexOf(s, target)] + repl + s[IndexOf(s, target) + |target|..]
  {
    ContainsIndexOf(s, target);
    var i := IndexOf(s, target);
    if i == -1 then s else s[..i] + repl + s[i + |target|..]
  }

  /** The first `c` of `s` is at `k` when `s[k]` is `c` and no earlier character is. */
  lemma FirstCharAt(s: string, c: char, k: int)
    requires 0 <= k < |s| && s[k] == c
    requires forall j :: 0 <= j < k ==> s[j] != c
    ensures IndexOf(s, [c]) == k
  {
    assert OccursAt(s, [c], k) by {
      assert s[k..k + 1] == [s[k]];
    }
    forall j | 0 <= j < k
      ensures !OccursAt(s, [c], j)
    {
      assert s[j..j + 1] == [s[j]];
    }
  }

  /** Replacing the first `target` by `ins + target` inserts `ins` right before it. */
  lemma ReplaceFirstInserts(s: string, target: string, ins: string)
    requires Contains(s, target)
    ensures var i := IndexOf(s, target);
      0 <= i && ReplaceFirst(s, target, ins + target) == s[..i] + ins + s[i..]
  {
    ContainsIndexOf(s, target);
    var i := IndexOf(s, target);
    var rest := s[i + |target|..];
    assert s[i..] == target + rest;
    assert s[..i] + (ins + target) + rest == s[..i] + ins + (target + rest);
  }

  /** strings.Join. */
  function Join(parts: seq<string>, sep: string): (r: string)
    ensures parts == [] ==> r == []
    ensures |parts| == 1 ==> r == parts[0]
  {
    if parts == [] then []
    else if |parts| == 1 then parts[0]
    else parts[0] + sep + Join(parts[1..], sep)
  }

  /** Joining one more part adds the separator and the part. */
  lemma {:induction false} JoinSnoc(parts: seq<string>, x: string, sep: string)
    requires parts != []
    ensures Join(parts + [x], sep) == Join(parts, sep) + sep + x
    decreases |parts|
  {
    if |parts| > 1 {
      assert (parts + [x])[1..] == parts[1..] + [x];
      JoinSnoc(parts[1..], x, sep);
    }
  }

  /** A word with a character the text lacks does not occur in it. */
  lemma AbsentChar(s: string, w: string, c: char)
    requires c in w && c !in s
    ensures !Contains(s, w)
  {
  }

  /** Text followed by something that starts with a space starts with that text and a space. */
  lemma SpacedPrefix(x: string, y: string)
    requires y != [] && y[0] == ' '
    ensures HasPrefix(x + y, x + " ")
  {
    assert (x + y)[..|x| + 1] == x + [y[0]];
  }

  /** A prefix of a text is a prefix of any extension of it. */
  lemma PrefixExtend(s: string, t: string, p: string)
    requires HasPrefix(s, p)
    ensures HasPrefix(s + t, p)
  {
    assert (s + t)[..|p|] == s[..|p|];
  }

  /** A concatenation starts with the first character of its first piece. */
  lemma HeadOfAppend(a: string, b: string)
    requires a != []
    ensures a + b != [] && (a + b)[0] == a[0]
  {
  }

  /** An empty piece in the middle of a concatenation changes nothing. */
  lemma AppendEmptyMiddle(a: string, b: string)
    ensures a + [] + b == a + b
  {
  }

  /** Concatenation regroups freely. */
  lemma AppendAssoc<T>(a: seq<T>, b: seq<T>, c: seq<T>)
    ensures a + b + c == a + (b + c)
  {
  }

  lemma PrefixOfAppend(a: string, b: string)
    ensures HasPrefix(a + b, a)
  {
    assert (a + b)[..|a|] == a;
  }

  lemma SuffixOfAppend(a: string, b: string)
    ensures HasSuffix(a + b, b)
  {
    assert (a + b)[|a + b| - |b|..] == b;
  }

  /** The lines, each ended by a newline. */
  function Lines(ls: seq<string>): (r: string)
    ensures ls != [] ==> HasSuffix(r, ls[|ls| - 1] + "\n")
  {
    if ls == [] then "" else Lines(ls[..|ls| - 1]) + ls[|ls| - 1] + "\n"
  }

  /** The text before the first `c`, i.e. strings.Split(s, string(c))[0]. */
  function BeforeFirst(s: string, c: char): (r: string)
    ensures HasPrefix(s, r)
    ensures c !in r
    ensures |r| < |s| ==> s[|r|] == c
  {
    if s == [] || s[0] == c then [] else [s[0]] + BeforeFirst(s[1..], c)
  }

  predicate IsSpace(c: char) { c == ' ' || c == '\t' || c == '\n' || c == '\r' || c == '\U{0B}' || c == '\U{0C}' }

  /** The text with its leading white space removed. */
  function SkipSpace(s: string): (r: string)
    ensures |r| <= |s| && s[|s| - |r|..] == r
    ensures r != [] ==> !IsSpace(r[0])
  {
    if s != [] && IsSpace(s[0]) then SkipSpace(s[1..]) else s
  }

  /** The leading run of non-space characters. */
  function Word(s: string): (r: string)
    ensures HasPrefix(s, r)
    ensures forall i :: 0 <= i < |r| ==> !IsSpace(r[i])
    ensures |r| < |s| ==> IsSpace(s[|r|])
  {
    if s == [] || IsSpace(s[0]) then [] else [s[0]] + Word(s[1..])
  }

  /** strings.Fields: the maximal runs of non-space characters. */
  function Fields(s: string): (r: seq<string>)
    decreases |s|
    ensures forall k :: 0 <= k < |r| ==> IsWord(r[k])
  {
    var t := SkipSpace(s);
    if t == [] then [] else
      var w := Word(t);
      [w] + Fields(t[|w|..])
  }

  /** A non-empty run of non-space characters. */
  predicate IsWord(w: string)
  {
    w != [] && forall i :: 0 <= i < |w| ==> !IsSpace(w[i])
  }

  function DigitChar(d: nat): (c: char)
    requires d < 10
  {
    ['0','1','2','3','4','5','6','7','8','9'][d]
  }

  /** fmt's %d for a natural number. */
  function NatToString(n: nat): (r: string)
    ensures r != []
    ensures forall i :: 0 <= i < |r| ==> '0' <= r[i] <= '9'
  {
    if n < 10 then [DigitChar(n)] else NatToString(n / 10) + [DigitChar(n % 10)]
  }

  /** fmt's %d for an integer. */
  function IntToString(n: int): (r: string)
    ensures r != []
  {
    if n < 0 then "-" + NatToString(-n) else NatToString(n)
  }

  predicate IsDigit(c: char) { '0' <= c <= '9' }

  function DigitValue(c: char): (v: int)
    ensures IsDigit(c) ==> 0 <= v < 10
  {
    c as int - '0' as int
  }

  /** The value of a run of decimal digits, most significant first. */
  function DigitsValue(d: string): (r: nat)
    requires forall i :: 0 <= i < |d| ==> IsDigit(d[i])
  {
    if d == [] then 0 else DigitsValue(d[..|d| - 1]) * 10 + DigitValue(d[|d| - 1])
  }

  /** The leading run of decimal digits. */
  function LeadingDigits(s: string): (r: string)
    ensures HasPrefix(s, r)
    ensures forall i :: 0 <= i < |r| ==> IsDigit(r[i])
    ensures |r| < |s| ==> !IsDigit(s[|r|])
  {
    if s == [] || !IsDigit(s[0]) then [] else [s[0]] + LeadingDigits(s[1..])
  }

  lemma {:induction false} LeadingDigitsAppend(d: string, u: string)
    requires forall i :: 0 <= i < |d| ==> IsDigit(d[i])
    requires u == [] || !IsDigit(u[0])
    ensures LeadingDigits(d + u) == d
    decreases |d|
  {
    if d != [] {
      assert (d + u)[1..] == d[1..] + u;
      LeadingDigitsAppend(d[1..], u);
    } else {
      assert d + u == u;
    }
  }

  /** Reading back what NatToString wrote gives the number. */
  lemma {:induction false} DigitsValueNatToString(n: nat)
    ensures DigitsValue(NatToString(n)) == n
    decreases n
  {
    var r := NatToString(n);
    var d := n % 10;
    assert DigitValue(DigitChar(d)) == d by {
      assert d == 0 || d == 1 || d == 2 || d == 3 || d == 4 || d == 5 || d == 6 || d == 7 || d == 8 || d == 9;
    }
    if n >= 10 {
      DigitsValueNatToString(n / 10);
      assert r[..|r| - 1] == NatToString(n / 10);
    }
  }

  /** Go's byte-wise string ordering, used by sort.Strings. */
  predicate LessEq(a: string, b: string)
    decreases |a|
  {
    a == [] || (b != [] && (a[0] < b[0] || (a[0] == b[0] && LessEq(a[1..], b[1..]))))
  }

  lemma {:induction false} LessEqTotal(a: string, b: string)
    ensures LessEq(a, b) || LessEq(b, a)
    decreases |a|
  {
    if a != [] && b != [] && a[0] == b[0] {
      LessEqTotal(a[1..], b[1..]);
    }
  }

  lemma {:induction false} LessEqTransitive(a: string, b: string, c: string)
    requires LessEq(a, b) && LessEq(b, c)
    ensures LessEq(a, c)
    decreases |a|
  {
    if a != [] && b != [] && c != [] && a[0] == b[0] && b[0] == c[0] {
      LessEqTransitive(a[1..], b[1..], c[1..]);
    }
  }

  lemma {:induction false} LessEqAntisymmetric(a: string, b: string)
    requires LessEq(a, b) && LessEq(b, a)
    ensures a == b
    decreases |a|
  {
    if a != [] && b != [] {
      LessEqAntisymmetric(a[1..], b[1..]);
      assert a == [a[0]] + a[1..];
      assert b == [b[0]] + b[1..];
    }
  }
}
