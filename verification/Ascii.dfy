/** Characters, case folding, token splitting and small sequence facts.

    A C `char` and a Python `str` character are both a Dafny `char` here. A C
    string holds code points below 256; a Python string may hold any. */
module Ascii {

  datatype Option<+T> = None | Some(value: T)

  // ---------------------------------------------------------------- case

  function Lower(c: char): (r: char) {
    if 'A' <= c <= 'Z' then (c as int + 32) as char else c
  }

  function Upper(c: char): (r: char) {
    if 'a' <= c <= 'z' then (c as int - 32) as char else c
  }

  /** ASCII letters folded up, everything else left alone. */
  function UpperAll(s: string): (r: string)
    ensures |r| == |s|
  {
    if s == "" then "" else [Upper(s[0])] + UpperAll(s[1..])
  }

  /** C's `strcasecmp(a, b) == 0`: character by character, folded to lower case. */
  predicate StrCaseEq(a: string, b: string) {
    if a == "" || b == "" then a == b
    else Lower(a[0]) == Lower(b[0]) && StrCaseEq(a[1..], b[1..])
  }

  predicate NoLower(w: string) { forall i :: 0 <= i < |w| ==> !('a' <= w[i] <= 'z') }

  /** Folding down and folding up decide the same comparisons, as long as the
      fixed word `b` has no lower-case letters. */
  lemma {:induction false} FoldAgrees(a: string, b: string)
    requires NoLower(b)
    ensures StrCaseEq(a, b) <==> UpperAll(a) == b
  {
    if a != "" && b != "" {
      assert b[0] == Upper(b[0]);
      FoldAgrees(a[1..], b[1..]);
      assert UpperAll(a)[0] == Upper(a[0]) && UpperAll(a)[1..] == UpperAll(a[1..]);
      assert b == [b[0]] + b[1..];
    }
  }

  // ---------------------------------------------------------------- splitting

  /** The delimiters handed to `strtok_r`. */
  const DELIMS: set<char> := {' ', '\t'}

  /** What Python's `str.split()` and `str.strip()` treat as white space. */
  const PYTHON_SPACE: set<char> := set c: char | IsPythonSpace(c)

  /** Python's `str.isspace` on one character. */
  predicate IsPythonSpace(c: char) {
    || '\t' <= c <= '\r' || '\U{1c}' <= c <= ' ' || c == '\U{85}' || c == '\U{a0}'
    || c == '\U{1680}' || '\U{2000}' <= c <= '\U{200a}' || c == '\U{2028}' || c == '\U{2029}'
    || c == '\U{202f}' || c == '\U{205f}' || c == '\U{3000}'
  }

  predicate Free(s: string, seps: set<char>) {
    forall i :: 0 <= i < |s| ==> s[i] !in seps
  }

  /** Length of the leading run of characters outside `seps`. */
  function RunLength(s: string, seps: set<char>): (n: nat)
    ensures n <= |s|
    ensures Free(s[..n], seps)
    ensures n < |s| ==> s[n] in seps
  {
    if s == "" || s[0] in seps then 0
    else
      var n := 1 + RunLength(s[1..], seps);
      assert s[..n] == [s[0]] + s[1..][..n - 1];
      n
  }

  /** The maximal runs of characters outside `seps`, in order. */
  function Split(s: string, seps: set<char>): (r: seq<string>)
    ensures forall i :: 0 <= i < |r| ==> r[i] != "" && Free(r[i], seps)
    decreases |s|
  {
    if s == "" then []
    else if s[0] in seps then Split(s[1..], seps)
    else
      var n := RunLength(s, seps);
      [s[..n]] + Split(s[n..], seps)
  }

  /** Drop leading separators. */
  function TrimLeft(s: string, seps: set<char>): (r: string)
    ensures |r| <= |s| && r == s[|s| - |r|..]
    ensures r != "" ==> r[0] !in seps
    ensures Free(s, seps) ==> r == s
  {
    if s != "" && s[0] in seps then TrimLeft(s[1..], seps) else s
  }

  function TrimRight(s: string, seps: set<char>): (r: string)
    ensures |r| <= |s| && r == s[..|r|]
    ensures r != "" ==> r[|r| - 1] !in seps
    ensures Free(s, seps) ==> r == s
  {
    if s != "" && s[|s| - 1] in seps then TrimRight(s[..|s| - 1], seps) else s
  }

  lemma {:induction false} RunLengthIs(s: string, seps: set<char>, n: nat)
    requires n <= |s| && Free(s[..n], seps) && (n < |s| ==> s[n] in seps)
    ensures RunLength(s, seps) == n
  {
    if n == 0 {
    } else {
      assert s[..n][0] == s[0];
      assert s[1..][..n - 1] == s[..n][1..];
      RunLengthIs(s[1..], seps, n - 1);
    }
  }

  lemma {:induction false} SplitSkipsLeading(s: string, seps: set<char>)
    ensures Split(TrimLeft(s, seps), seps) == Split(s, seps)
  {
    if s != "" && s[0] in seps { SplitSkipsLeading(s[1..], seps); }
  }

  lemma {:induction false} SplitEmptyIff(s: string, seps: set<char>)
    ensures Split(s, seps) == [] <==> TrimLeft(s, seps) == ""
  {
    if s != "" && s[0] in seps { SplitEmptyIff(s[1..], seps); }
  }

  predicate All(s: string, chars: set<char>) { forall i :: 0 <= i < |s| ==> s[i] in chars }

  lemma AllCons(s: string, chars: set<char>)
    requires s != ""
    ensures All(s, chars) <==> s[0] in chars && All(s[1..], chars)
  {
    assert s == [s[0]] + s[1..];
    if s[0] in chars && All(s[1..], chars) {
      forall i | 0 <= i < |s| ensures s[i] in chars { if i > 0 { assert s[i] == s[1..][i - 1]; } }
    }
  }

  lemma {:induction false} TrimEmptyIff(s: string, seps: set<char>)
    ensures TrimLeft(s, seps) == "" <==> All(s, seps)
  {
    if s == "" {
    } else {
      TrimEmptyIff(s[1..], seps);
      AllCons(s, seps);
    }
  }

  lemma {:induction false} TrimBlank(s: string, few: set<char>, many: set<char>)
    requires few <= many
    ensures All(TrimLeft(s, few), many) <==> All(s, many)
  {
    if s != "" && s[0] in few {
      TrimBlank(s[1..], few, many);
      AllCons(s, many);
    }
  }

  lemma {:induction false} LeftPassed(a: string, t: string, seps: set<char>)
    requires All(a, seps) && (t != "" ==> t[0] !in seps)
    ensures TrimLeft(a + t, seps) == t
  {
    if a == "" {
      assert a + t == t;
    } else {
      assert (a + t)[1..] == a[1..] + t;
      LeftPassed(a[1..], t, seps);
    }
  }

  lemma {:induction false} RightPassed(t: string, b: string, seps: set<char>)
    requires All(b, seps) && (t != "" ==> t[|t| - 1] !in seps)
    ensures TrimRight(t + b, seps) == t
    decreases |b|
  {
    if b == "" {
      assert t + b == t;
    } else {
      assert (t + b)[..|t + b| - 1] == t + b[..|b| - 1];
      RightPassed(t, b[..|b| - 1], seps);
    }
  }

  lemma {:induction false} AllGone(s: string, seps: set<char>)
    requires All(s, seps)
    ensures TrimRight(s, seps) == ""
  {
    if s != "" { AllGone(s[..|s| - 1], seps); }
  }

  /** A word followed by a separator is the first token. */
  lemma SplitWord(w: string, c: char, rest: string, seps: set<char>)
    requires w != "" && Free(w, seps) && c in seps
    ensures Split(w + [c] + rest, seps) == [w] + Split(rest, seps)
  {
    var s := w + [c] + rest;
    assert s[..|w|] == w && s[|w|..] == [c] + rest;
    RunLengthIs(s, seps, |w|);
    assert s[0] == w[0];
    assert ([c] + rest)[1..] == rest;
  }

  lemma SplitLastWord(w: string, seps: set<char>)
    requires w != "" && Free(w, seps)
    ensures Split(w, seps) == [w]
  {
    assert w[..|w|] == w && w[|w|..] == "";
    RunLengthIs(w, seps, |w|);
    assert w[0] !in seps;
  }

  /** Two separator sets that agree on every character of a text split it alike. */
  lemma {:induction false} SplitAgrees(s: string, a: set<char>, b: set<char>)
    requires forall i :: 0 <= i < |s| ==> (s[i] in a <==> s[i] in b)
    ensures Split(s, a) == Split(s, b)
    decreases |s|
  {
    if s == "" {
    } else if s[0] in a {
      SplitAgrees(s[1..], a, b);
    } else {
      var n := RunLength(s, a);
      forall i | 0 <= i < n ensures s[..n][i] !in b { assert s[..n][i] == s[i] && s[..n][i] !in a; }
      RunLengthIs(s, b, n);
      SplitAgrees(s[n..], a, b);
    }
  }

  // ---------------------------------------------------------------- joining

  /** Python's `" ".join(words)`. */
  function Join(words: seq<string>): (r: string) {
    if words == [] then "" else if |words| == 1 then words[0]
    else Join(words[..|words| - 1]) + " " + words[|words| - 1]
  }

  lemma {:induction false} JoinCons(w: string, words: seq<string>)
    requires words != []
    ensures Join([w] + words) == w + " " + Join(words)
  {
    var all := [w] + words;
    assert all[..|all| - 1] == [w] + words[..|words| - 1];
    if |words| > 1 {
      JoinCons(w, words[..|words| - 1]);
    } else {
      assert words[..0] == [];
    }
  }

  /** Splitting what was joined gives the words back. */
  lemma {:induction false} SplitJoin(words: seq<string>, seps: set<char>)
    requires ' ' in seps
    requires forall i :: 0 <= i < |words| ==> words[i] != "" && Free(words[i], seps)
    ensures Split(Join(words), seps) == words
  {
    if words == [] {
    } else if |words| == 1 {
      SplitLastWord(words[0], seps);
    } else {
      var rest := words[1..];
      assert words == [words[0]] + rest;
      JoinCons(words[0], rest);
      SplitJoin(rest, seps);
      assert words[0] + " " + Join(rest) == words[0] + [' '] + Join(rest);
      SplitWord(words[0], ' ', Join(rest), seps);
    }
  }
}
