/**
 * ASCII string helpers shared by the registry-key normalisation, the
 * editor file-name derivation and the file-name heuristics:
 * `toLowerCase()`, `replace(/\s+/g, '_')` and `includes(...)`.
 */
module Strings {

  predicate IsUpper(c: char) {
    'A' <= c <= 'Z'
  }

  /** The characters `\s` matches, restricted to ASCII: space, and tab through carriage return. */
  predicate IsSpace(c: char) {
    c == ' ' || '\t' <= c <= '\r'
  }

  predicate NoUpper(s: string) {
    forall c :: c in s ==> !IsUpper(c)
  }

  predicate NoSpace(s: string) {
    forall c :: c in s ==> !IsSpace(c)
  }

  predicate AllSpace(s: string) {
    forall c :: c in s ==> IsSpace(c)
  }

  function LowerChar(c: char): (r: char)
    ensures !IsUpper(r)
    ensures IsSpace(r) <==> IsSpace(c)
    ensures !IsUpper(c) ==> r == c
  {
    if IsUpper(c) then (c as int - 'A' as int + 'a' as int) as char else c
  }

  /** `toLowerCase()` over ASCII. */
  function ToLower(s: string): (r: string)
    ensures |r| == |s|
    ensures forall i :: 0 <= i < |s| ==> r[i] == LowerChar(s[i])
  {
    seq(|s|, i requires 0 <= i < |s| => LowerChar(s[i]))
  }

  /** The lower-cased string has no upper-case letter and the same whitespace. */
  lemma ToLowerProperties(s: string)
    ensures NoUpper(ToLower(s))
    ensures NoSpace(s) ==> NoSpace(ToLower(s))
    ensures AllSpace(s) ==> AllSpace(ToLower(s))
  {
    var r := ToLower(s);
    forall c | c in r ensures !IsUpper(c) && (NoSpace(s) ==> !IsSpace(c)) && (AllSpace(s) ==> IsSpace(c)) {
      var i :| 0 <= i < |r| && r[i] == c;
      assert s[i] in s;
    }
  }

  lemma ToLowerFixedPoint(s: string)
    requires NoUpper(s)
    ensures ToLower(s) == s
  {
    forall i | 0 <= i < |s| ensures ToLower(s)[i] == s[i] {
      assert s[i] in s;
    }
  }

  /** Drops the leading run of whitespace. */
  function DropSpaces(s: string): (r: string)
    ensures |r| <= |s|
    ensures r == [] || !IsSpace(r[0])
    ensures forall c :: c in r ==> c in s
  {
    if s != [] && IsSpace(s[0]) then DropSpaces(s[1..]) else s
  }

  /** `replace(/\s+/g, '_')`: every maximal run of whitespace becomes one `_`. */
  function ReplaceSpaceRuns(s: string): (r: string)
    ensures |r| <= |s|
    ensures r == [] <==> s == []
    decreases |s|
  {
    if s == [] then []
    else if IsSpace(s[0]) then "_" + ReplaceSpaceRuns(DropSpaces(s[1..]))
    else [s[0]] + ReplaceSpaceRuns(s[1..])
  }

  /**
   * The result contains no whitespace, is never longer than the input, and
   * holds only `_` and characters of the input.
   */
  lemma {:induction false} ReplaceSpaceRunsChars(s: string)
    ensures NoSpace(ReplaceSpaceRuns(s))
    ensures |ReplaceSpaceRuns(s)| <= |s|
    ensures forall c :: c in ReplaceSpaceRuns(s) ==> c == '_' || c in s
    decreases |s|
  {
    if s == [] {
    } else if IsSpace(s[0]) {
      ReplaceSpaceRunsChars(DropSpaces(s[1..]));
      assert forall c :: c in s[1..] ==> c in s;
    } else {
      ReplaceSpaceRunsChars(s[1..]);
      assert forall c :: c in s[1..] ==> c in s;
    }
  }

  /** Replacing adds no upper-case letters (`_` is not one). */
  lemma ReplaceSpaceRunsKeepsNoUpper(s: string)
    requires NoUpper(s)
    ensures NoUpper(ReplaceSpaceRuns(s))
  {
    ReplaceSpaceRunsChars(s);
  }

  /** A string without whitespace is left unchanged. */
  lemma {:induction false} ReplaceSpaceRunsFixedPoint(s: string)
    requires NoSpace(s)
    ensures ReplaceSpaceRuns(s) == s
    decreases |s|
  {
    if s != [] {
      assert s[0] in s;
      assert forall c :: c in s[1..] ==> c in s;
      ReplaceSpaceRunsFixedPoint(s[1..]);
    }
  }

  /** Replacing twice is the same as replacing once. */
  lemma ReplaceSpaceRunsIdempotent(s: string)
    ensures ReplaceSpaceRuns(ReplaceSpaceRuns(s)) == ReplaceSpaceRuns(s)
  {
    ReplaceSpaceRunsChars(s);
    ReplaceSpaceRunsFixedPoint(ReplaceSpaceRuns(s));
  }

  /** A whitespace-free word passes through unchanged in front of the rest. */
  lemma {:induction false} ReplaceAfterWord(w: string, t: string)
    requires NoSpace(w)
    ensures ReplaceSpaceRuns(w + t) == w + ReplaceSpaceRuns(t)
    decreases |w|
  {
    if w == [] {
      assert w + t == t;
    } else {
      assert (w + t)[0] == w[0] && (w + t)[1..] == w[1..] + t;
      assert w[0] in w;
      assert forall c :: c in w[1..] ==> c in w;
      ReplaceAfterWord(w[1..], t);
      assert [w[0]] + (w[1..] + ReplaceSpaceRuns(t)) == w + ReplaceSpaceRuns(t);
    }
  }

  lemma {:induction false} DropSpacesRun(sp: string, t: string)
    requires AllSpace(sp)
    requires t == [] || !IsSpace(t[0])
    ensures DropSpaces(sp + t) == t
    decreases |sp|
  {
    if sp == [] {
      assert sp + t == t;
    } else {
      assert sp[0] in sp;
      assert forall c :: c in sp[1..] ==> c in sp;
      assert (sp + t)[1..] == sp[1..] + t;
      DropSpacesRun(sp[1..], t);
    }
  }

  /** A non-empty whitespace run before a rest that does not start with whitespace becomes one `_`. */
  lemma ReplaceRun(sp: string, t: string)
    requires AllSpace(sp) && |sp| > 0
    requires t == [] || !IsSpace(t[0])
    ensures ReplaceSpaceRuns(sp + t) == "_" + ReplaceSpaceRuns(t)
  {
    assert sp[0] in sp;
    assert (sp + t)[0] == sp[0];
    assert (sp + t)[1..] == sp[1..] + t;
    assert forall c :: c in sp[1..] ==> c in sp;
    DropSpacesRun(sp[1..], t);
  }

  /**
   * A word, a non-empty whitespace run and a rest that does not start with
   * whitespace: the run becomes one `_` after the word.
   */
  lemma ReplaceWordAndRun(w: string, sp: string, t: string)
    requires NoSpace(w) && AllSpace(sp) && |sp| > 0
    requires t == [] || !IsSpace(t[0])
    ensures ReplaceSpaceRuns(w + (sp + t)) == w + ("_" + ReplaceSpaceRuns(t))
  {
    ReplaceAfterWord(w, sp + t);
    ReplaceRun(sp, t);
  }

  /** `sub` occurs in `s` starting at offset `i`. */
  ghost predicate OccursAt<T>(s: seq<T>, sub: seq<T>, i: int) {
    0 <= i && i + |sub| <= |s| && s[i..i + |sub|] == sub
  }

  /** `s.includes(sub)`. */
  function Contains<T(==)>(s: seq<T>, sub: seq<T>): (r: bool)
    ensures r ==> |sub| <= |s|
    ensures sub == [] ==> r
    decreases |s|
  {
    if |sub| > |s| then false
    else if s[..|sub|] == sub then true
    else s != [] && Contains(s[1..], sub)
  }

  /** `Contains` holds exactly when `sub` occurs at some offset of `s`. */
  lemma {:induction false} ContainsIff<T>(s: seq<T>, sub: seq<T>)
    ensures Contains(s, sub) <==> exists i :: OccursAt(s, sub, i)
    decreases |s|
  {
    if |sub| > |s| {
    } else if s[..|sub|] == sub {
      assert OccursAt(s, sub, 0);
    } else {
      ContainsIff(s[1..], sub);
      if Contains(s[1..], sub) {
        var i :| OccursAt(s[1..], sub, i);
        assert s[i + 1..i + 1 + |sub|] == s[1..][i..i + |sub|];
        assert OccursAt(s, sub, i + 1);
      }
      if i :| OccursAt(s, sub, i) {
        assert i != 0;
        assert s[1..][i - 1..i - 1 + |sub|] == s[i..i + |sub|];
        assert OccursAt(s[1..], sub, i - 1);
      }
    }
  }

  /** Every element of `sub` occurs in any sequence that contains `sub`. */
  lemma ContainsKeepsElements<T>(s: seq<T>, sub: seq<T>, c: T)
    requires c in sub
    ensures Contains(s, sub) ==> c in s
  {
    ContainsIff(s, sub);
    if Contains(s, sub) {
      var i :| OccursAt(s, sub, i);
      var j :| 0 <= j < |sub| && sub[j] == c;
      assert s[i..i + |sub|][j] == s[i + j];
    }
  }
}
