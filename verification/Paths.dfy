/** Repository paths. The checks work on strings; what they mean is stated on path
    components. */
module Paths {

  /** The components of a path: the text between its slashes. */
  function Split(s: string): (parts: seq<string>)
    ensures |parts| >= 1
  {
    if s == "" then [""]
    else
      var rest := Split(s[1..]);
      if s[0] == '/' then [""] + rest else [[s[0]] + rest[0]] + rest[1..]
  }

  function Join(parts: seq<string>): string
    requires |parts| >= 1
  {
    if |parts| == 1 then parts[0] else parts[0] + "/" + Join(parts[1..])
  }

  lemma {:induction false} JoinHead(c: char, parts: seq<string>)
    requires |parts| >= 1
    ensures Join([[c] + parts[0]] + parts[1..]) == [c] + Join(parts)
  {
    var all := [[c] + parts[0]] + parts[1..];
    assert all[1..] == parts[1..];
    if |parts| > 1 {
      assert Join(all) == ([c] + parts[0]) + "/" + Join(parts[1..]);
      assert [c] + Join(parts) == [c] + (parts[0] + "/" + Join(parts[1..]));
    }
  }

  /** A path is the join of its components. */
  lemma {:induction false} JoinSplit(s: string)
    ensures Join(Split(s)) == s
  {
    if s != "" {
      var rest := Split(s[1..]);
      JoinSplit(s[1..]);
      if s[0] == '/' {
        assert ([""] + rest)[1..] == rest;
        assert Join([""] + rest) == "" + "/" + Join(rest);
        assert "" + "/" + s[1..] == s;
      } else {
        JoinHead(s[0], rest);
        assert [s[0]] + s[1..] == s;
      }
    }
  }

  lemma {:induction false} SplitCons(c: char, s: string)
    ensures Split([c] + s) == if c == '/' then [""] + Split(s) else [[c] + Split(s)[0]] + Split(s)[1..]
  {
    assert ([c] + s)[1..] == s;
  }

  lemma {:induction false} SplitConcat(a: string, b: string)
    ensures Split(a + "/" + b) == Split(a) + Split(b)
  {
    hide Split;
    if a == "" {
      SplitCons('/', b);
      SplitPlain("");
      assert a + "/" + b == ['/'] + b;
    } else {
      var tail := a[1..] + "/" + b;
      assert a + "/" + b == [a[0]] + tail;
      assert a == [a[0]] + a[1..];
      SplitCons(a[0], tail);
      SplitCons(a[0], a[1..]);
      SplitConcat(a[1..], b);
    }
  }

  lemma {:induction false} SplitPlain(s: string)
    requires '/' !in s
    ensures Split(s) == [s]
  {
    if s != "" {
      SplitPlain(s[1..]);
      assert [s[0]] + s[1..] == s;
    }
  }

  lemma {:induction false} JoinConcat(a: seq<string>, b: seq<string>)
    requires |a| >= 1 && |b| >= 1
    ensures Join(a + b) == Join(a) + "/" + Join(b)
  {
    assert (a + b)[1..] == a[1..] + b;
    if |a| > 1 {
      JoinConcat(a[1..], b);
      assert a[0] + "/" + (Join(a[1..]) + "/" + Join(b)) == (a[0] + "/" + Join(a[1..])) + "/" + Join(b);
    }
  }

  predicate HasPrefix(s: string, prefix: string) {
    |prefix| <= |s| && s[..|prefix|] == prefix
  }

  predicate Within(value: string, root: string) {
    value == root || HasPrefix(value, root + "/")
  }

  predicate WithinAny(value: string, roots: seq<string>) {
    exists i :: 0 <= i < |roots| && Within(value, roots[i])
  }

  /** The string test says exactly that the root's components come first. */
  lemma {:induction false} WithinIsComponentPrefix(value: string, root: string)
    ensures Within(value, root) <==> Split(root) <= Split(value)
  {
    var v, r := Split(value), Split(root);
    if HasPrefix(value, root + "/") {
      var rest := value[|root| + 1..];
      assert value == root + "/" + rest;
      SplitConcat(root, rest);
    }
    if r <= v {
      JoinSplit(value);
      JoinSplit(root);
      if |r| == |v| {
        assert r == v;
      } else {
        var rest := v[|r|..];
        assert v == r + rest;
        JoinConcat(r, rest);
        assert value == root + "/" + Join(rest);
        assert value[..|root| + 1] == root + "/";
      }
    }
  }

  /** Scopes nest. */
  lemma {:induction false} WithinTransitive(a: string, b: string, c: string)
    requires Within(a, b) && Within(b, c)
    ensures Within(a, c)
  {
    WithinIsComponentPrefix(a, b);
    WithinIsComponentPrefix(b, c);
    WithinIsComponentPrefix(a, c);
  }

  lemma {:induction false} WithinAnyTransitive(value: string, middle: seq<string>, roots: seq<string>)
    requires WithinAny(value, middle)
    requires forall i :: 0 <= i < |middle| ==> WithinAny(middle[i], roots)
    ensures WithinAny(value, roots)
  {
    hide Within;
    var i :| 0 <= i < |middle| && Within(value, middle[i]);
    var j :| 0 <= j < |roots| && Within(middle[i], roots[j]);
    WithinTransitive(value, middle[i], roots[j]);
  }

  // ----- Clean paths -----

  /** The relative paths lexical cleaning leaves alone: the lone dot, or components that
      are neither empty nor a dot, with double dots only at the front. */
  predicate IsClean(s: string) {
    s == "."
    || (var parts := Split(s);
        && (forall i :: 0 <= i < |parts| ==> parts[i] != "" && parts[i] != ".")
        && (forall i :: 0 < i < |parts| && parts[i] == ".." ==> parts[i - 1] == ".."))
  }

  predicate SafePath(s: string) {
    && s != "" && s != "." && s != ".." && !HasPrefix(s, "/")
    && IsClean(s) && !HasPrefix(s, "../") && '\0' !in s
  }

  predicate ValidRepoPath(s: string) {
    s != "" && s != "." && !HasPrefix(s, "/") && '\\' !in s && IsClean(s) && !HasPrefix(s, "../")
  }

  predicate Climbs(s: string) {
    ".." in Split(s)
  }

  lemma {:induction false} LeadingDots(s: string, i: nat)
    requires IsClean(s) && s != "." && i < |Split(s)| && Split(s)[i] == ".."
    ensures Split(s)[0] == ".."
  {
    if i > 0 {
      assert Split(s)[i - 1] == "..";
      LeadingDots(s, i - 1);
    }
  }

  lemma {:induction false} FirstComponent(s: string)
    requires Split(s)[0] == ".."
    ensures s == ".." || HasPrefix(s, "../")
  {
    JoinSplit(s);
    var parts := Split(s);
    if |parts| > 1 {
      assert s == ".." + "/" + Join(parts[1..]);
      assert s[..3] == "../";
    }
  }

  /** A safe path never climbs out of its root. */
  lemma {:induction false} SafeNeverClimbs(s: string)
    requires SafePath(s)
    ensures !Climbs(s)
  {
    if Climbs(s) {
      var i :| 0 <= i < |Split(s)| && Split(s)[i] == "..";
      LeadingDots(s, i);
      FirstComponent(s);
    }
  }

  /** The contract's path check admits one climbing path, the parent directory itself. */
  lemma {:induction false} RepoPathClimbsExactly(s: string)
    ensures ValidRepoPath(s) && Climbs(s) <==> s == ".."
  {
    SplitPlain("..");
    if ValidRepoPath(s) && Climbs(s) {
      var i :| 0 <= i < |Split(s)| && Split(s)[i] == "..";
      LeadingDots(s, i);
      FirstComponent(s);
    }
  }

  // ----- Text order -----

  /** Text order by code point. */
  predicate AtMost(a: string, b: string) {
    a == "" || (b != "" && (a[0] < b[0] || (a[0] == b[0] && AtMost(a[1..], b[1..]))))
  }

  lemma {:induction false} AtMostTransitive(a: string, b: string, c: string)
    requires AtMost(a, b) && AtMost(b, c)
    ensures AtMost(a, c)
  {
    if a != "" && a[0] == b[0] == c[0] {
      AtMostTransitive(a[1..], b[1..], c[1..]);
    }
  }

  lemma {:induction false} AtMostAntisymmetric(a: string, b: string)
    requires AtMost(a, b) && AtMost(b, a)
    ensures a == b
  {
    if a != "" && b != "" {
      AtMostAntisymmetric(a[1..], b[1..]);
      assert a == [a[0]] + a[1..] && b == [b[0]] + b[1..];
    }
  }

  predicate Sorted(s: seq<string>) {
    forall i :: 0 < i < |s| ==> AtMost(s[i - 1], s[i])
  }

  lemma {:induction false} SortedPairs(s: seq<string>, i: nat, j: nat)
    requires Sorted(s) && i < j < |s|
    ensures AtMost(s[i], s[j])
    decreases j
  {
    assert AtMost(s[j - 1], s[j]);
    if i < j - 1 {
      SortedPairs(s, i, j - 1);
      AtMostTransitive(s[i], s[j - 1], s[j]);
    }
  }

  predicate NoRepeats(s: seq<string>) {
    forall i, j :: 0 <= i < j < |s| ==> s[i] != s[j]
  }

  /** In a sorted list it is enough to compare neighbours. */
  lemma {:induction false} NeighboursDecide(s: seq<string>)
    requires Sorted(s) && forall i :: 0 < i < |s| ==> s[i - 1] != s[i]
    ensures NoRepeats(s)
  {
    forall i, j | 0 <= i < j < |s|
      ensures s[i] != s[j]
    {
      if i < j - 1 {
        SortedPairs(s, i, j - 1);
        assert AtMost(s[j - 1], s[j]) && s[j - 1] != s[j];
        if s[i] == s[j] {
          AtMostAntisymmetric(s[j - 1], s[j]);
        }
      }
    }
  }

  method IsSorted(s: seq<string>) returns (sorted: bool)
    ensures sorted == Sorted(s)
  {
    for k := 0 to |s|
      invariant forall i :: 0 < i < k ==> AtMost(s[i - 1], s[i])
    {
      if k > 0 && !AtMost(s[k - 1], s[k]) {
        return false;
      }
    }
    return true;
  }
}
