/** The pieces of Go's `strings` package that the log normaliser calls: TrimSpace, ToLower,
    ToUpper and Index. Each char stands for one byte; whitespace and case are ASCII. */
module Text {

  /** ASCII white space, as `strings.TrimSpace` sees it. */
  predicate IsSpace(c: char) {
    c == ' ' || c == '\t' || c == '\n' || c == '\U{0B}' || c == '\U{0C}' || c == '\r'
  }

  /** `r` is a contiguous piece of `s`. */
  ghost predicate IsSlice(r: string, s: string) {
    exists i, j :: 0 <= i <= j <= |s| && r == s[i..j]
  }

  lemma SliceOfSelf(s: string)
    ensures IsSlice(s, s)
  {
    assert s == s[0..|s|];
  }

  lemma SliceTransitive(r: string, m: string, s: string)
    requires IsSlice(r, m) && IsSlice(m, s)
    ensures IsSlice(r, s)
  {
    var i, j :| 0 <= i <= j <= |m| && r == m[i..j];
    var i', j' :| 0 <= i' <= j' <= |s| && m == s[i'..j'];
    assert |m| == j' - i';
    forall k | 0 <= k < j - i ensures r[k] == s[i' + i + k] {
      assert r[k] == m[i + k];
    }
    assert r == s[i' + i..i' + j];
  }

  lemma SuffixIsSlice(s: string, k: nat)
    requires k <= |s|
    ensures IsSlice(s[k..], s)
  {
    assert s[k..] == s[k..|s|];
  }

  function TrimLeft(s: string): (r: string)
    ensures |r| <= |s|
  {
    if s != [] && IsSpace(s[0]) then TrimLeft(s[1..]) else s
  }

  function TrimRight(s: string): (r: string)
    ensures |r| <= |s|
  {
    if s != [] && IsSpace(s[|s| - 1]) then TrimRight(s[..|s| - 1]) else s
  }

  /** `strings.TrimSpace`: drops leading and trailing white space. */
  function TrimSpace(s: string): (r: string)
    ensures |r| <= |s|
  {
    TrimRight(TrimLeft(s))
  }

  /** TrimLeft drops a prefix made of white space, up to the first other character. */
  lemma {:induction false} TrimLeftSpec(s: string)
    ensures var r := TrimLeft(s);
            && r == s[|s| - |r|..]
            && (r == [] || !IsSpace(r[0]))
            && forall i :: 0 <= i < |s| - |r| ==> IsSpace(s[i])
  {
    if s != [] && IsSpace(s[0]) {
      TrimLeftSpec(s[1..]);
    }
  }

  /** TrimRight drops a suffix made of white space, back to the last other character. */
  lemma {:induction false} TrimRightSpec(s: string)
    ensures var r := TrimRight(s);
            && r == s[..|r|]
            && (r == [] || !IsSpace(r[|r| - 1]))
            && forall i :: |r| <= i < |s| ==> IsSpace(s[i])
  {
    if s != [] && IsSpace(s[|s| - 1]) {
      TrimRightSpec(s[..|s| - 1]);
    }
  }

  /** TrimSpace leaves the piece of `s` between its leading and its trailing white space: what it
      drops is white space, and what it keeps neither starts nor ends with white space. */
  lemma TrimSpaceSpec(s: string)
    ensures var r := TrimSpace(s);
            var i := |s| - |TrimLeft(s)|;
            && i + |r| <= |s| && r == s[i..i + |r|]
            && (r == [] || (!IsSpace(r[0]) && !IsSpace(r[|r| - 1])))
            && (forall k :: 0 <= k < i ==> IsSpace(s[k]))
            && (forall k :: i + |r| <= k < |s| ==> IsSpace(s[k]))
  {
    var l := TrimLeft(s);
    TrimLeftSpec(s);
    TrimRightSpec(l);
    var r := TrimRight(l);
    var i := |s| - |l|;
    assert r == s[i..i + |r|];
    if r != [] {
      assert r[0] == l[0];
    }
    forall k | i + |r| <= k < |s| ensures IsSpace(s[k]) {
      assert s[k] == l[k - i];
    }
  }

  lemma TrimSpaceIsSlice(s: string)
    ensures IsSlice(TrimSpace(s), s)
  {
    TrimSpaceSpec(s);
    var r := TrimSpace(s);
    var i := |s| - |TrimLeft(s)|;
    assert r == s[i..i + |r|];
  }

  /** A string that neither starts nor ends with white space is left alone. */
  lemma TrimSpaceOfTrimmed(s: string)
    requires s == [] || (!IsSpace(s[0]) && !IsSpace(s[|s| - 1]))
    ensures TrimSpace(s) == s
  {
  }

  /** Leading white space does not change the result. */
  lemma TrimSpaceSkipsLeadingSpace(c: char, s: string)
    requires IsSpace(c)
    ensures TrimSpace([c] + s) == TrimSpace(s)
  {
    assert ([c] + s)[1..] == s;
  }

  function LowerAscii(c: char): char {
    if 'A' <= c <= 'Z' then (c as int + 32) as char else c
  }

  function UpperAscii(c: char): char {
    if 'a' <= c <= 'z' then (c as int - 32) as char else c
  }

  /** `strings.ToLower` on ASCII text. */
  function ToLower(s: string): (r: string)
    ensures |r| == |s|
  {
    if s == [] then [] else [LowerAscii(s[0])] + ToLower(s[1..])
  }

  /** ToLower maps each character on its own. */
  lemma {:induction false} ToLowerAt(s: string, i: nat)
    requires i < |s|
    ensures ToLower(s)[i] == LowerAscii(s[i])
  {
    if i > 0 {
      ToLowerAt(s[1..], i - 1);
    }
  }

  /** `strings.ToUpper` on ASCII text. */
  function ToUpper(s: string): (r: string)
    ensures |r| == |s|
  {
    if s == [] then [] else [UpperAscii(s[0])] + ToUpper(s[1..])
  }

  /** `t` occurs in `s` starting at position `k`. */
  predicate OccursAt(s: string, t: string, k: int) {
    0 <= k && k + |t| <= |s| && s[k..k + |t|] == t
  }

  /** `strings.Index`: the first position where `t` occurs in `s`, or -1 when it does not occur
      (IndexSpec). */
  function Index(s: string, t: string): (r: int)
    ensures -1 <= r && (r != -1 ==> r + |t| <= |s|)
  {
    IndexFrom(s, t, 0)
  }

  /** The first occurrence of `t` in `s` at or after position `i`, or -1. */
  function IndexFrom(s: string, t: string, i: nat): (r: int)
    ensures r == -1 || (i <= r && r + |t| <= |s|)
    decreases |s| - i
  {
    if i + |t| > |s| then -1
    else if OccursAt(s, t, i) then i
    else IndexFrom(s, t, i + 1)
  }

  lemma {:induction false} IndexFromSpec(s: string, t: string, i: nat)
    ensures var r := IndexFrom(s, t, i);
            && (r == -1 ==> forall k :: i <= k ==> !OccursAt(s, t, k))
            && (r != -1 ==> OccursAt(s, t, r) && forall k :: i <= k < r ==> !OccursAt(s, t, k))
    decreases |s| - i
  {
    if i + |t| <= |s| && !OccursAt(s, t, i) {
      IndexFromSpec(s, t, i + 1);
    }
  }

  /** Index finds the first occurrence, and -1 exactly when there is none. */
  lemma IndexSpec(s: string, t: string)
    ensures Index(s, t) == -1 <==> forall k :: !OccursAt(s, t, k)
    ensures Index(s, t) != -1 ==>
              OccursAt(s, t, Index(s, t)) && forall k :: 0 <= k < Index(s, t) ==> !OccursAt(s, t, k)
  {
    IndexFromSpec(s, t, 0);
  }

  /** A token whose first character does not appear in `s` does not occur in `s`. */
  lemma {:induction false} IndexWithoutFirstChar(s: string, t: string)
    requires t != [] && t[0] !in s
    ensures Index(s, t) == -1
  {
    IndexSpec(s, t);
    forall k ensures !OccursAt(s, t, k) {
      if 0 <= k && k + |t| <= |s| {
        assert s[k..k + |t|][0] == s[k];
      }
    }
  }

  /** When the token's first character does not appear in `a`, its first occurrence in
      `a + t + rest` is right after `a`. */
  lemma {:induction false} IndexAfterPrefix(a: string, t: string, rest: string)
    requires t != [] && t[0] !in a
    ensures Index(a + t + rest, t) == |a|
  {
    var s := a + t + rest;
    IndexSpec(s, t);
    assert s[|a|..|a| + |t|] == t;
    assert OccursAt(s, t, |a|);
    forall k | 0 <= k < |a| ensures !OccursAt(s, t, k) {
      assert s[k..k + |t|][0] == s[k] == a[k];
    }
  }

  /** The first occurrence of `t` in `s` stays the first once more text follows `s`. */
  lemma {:induction false} IndexExtend(s: string, t: string, rest: string)
    requires Index(s, t) != -1
    ensures Index(s + rest, t) == Index(s, t)
  {
    var r := Index(s, t);
    var s' := s + rest;
    IndexSpec(s, t);
    IndexSpec(s', t);
    assert s'[r..r + |t|] == s[r..r + |t|];
    assert OccursAt(s', t, r);
    forall k | 0 <= k < r ensures !OccursAt(s', t, k) {
      assert !OccursAt(s, t, k);
      assert s'[k..k + |t|] == s[k..k + |t|];
    }
  }
}
