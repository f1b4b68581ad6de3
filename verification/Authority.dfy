/** The path scopes a change passes through, from the operator's policy through the
    planned task to the proposed file change. Each check can only narrow what the one
    before it allowed. */
module Authority {
  import opened Paths

  datatype Scope = Scope(readable: seq<string>, writable: seq<string>, prohibited: seq<string>)

  predicate AllWithin(values: seq<string>, roots: seq<string>) {
    forall i :: 0 <= i < |values| ==> WithinAny(values[i], roots)
  }

  predicate NoneWithin(values: seq<string>, roots: seq<string>) {
    forall i :: 0 <= i < |values| ==> !WithinAny(values[i], roots)
  }

  // ----- Policy -----

  predicate ValidGroup(group: seq<string>) {
    && group != [] && Sorted(group) && NoRepeats(group)
    && (forall i :: 0 <= i < |group| ==> SafePath(group[i]))
  }

  predicate ValidPolicy(p: Scope) {
    && ValidGroup(p.readable) && ValidGroup(p.writable) && ValidGroup(p.prohibited)
    && AllWithin(p.writable, p.readable) && NoneWithin(p.writable, p.prohibited)
    && NoneWithin(p.prohibited, p.writable)
  }

  /** Remembers only the previous path, and still finds every duplicate. */
  method ValidateGroup(group: seq<string>) returns (ok: bool)
    ensures ok <==> ValidGroup(group)
  {
    hide SafePath, AtMost;
    var sorted := IsSorted(group);
    if group == [] || !sorted {
      return false;
    }
    EmptyIsUnsafe();
    var previous := "";
    for k := 0 to |group|
      invariant previous == if k == 0 then "" else group[k - 1]
      invariant forall i :: 0 <= i < k ==> SafePath(group[i])
      invariant forall i :: 0 < i < k ==> group[i - 1] != group[i]
    {
      if !SafePath(group[k]) || group[k] == previous {
        return false;
      }
      previous := group[k];
    }
    NeighboursDecide(group);
    return true;
  }

  lemma {:induction false} EmptyIsUnsafe()
    ensures !SafePath("")
  {
  }

  method CheckAllWithin(values: seq<string>, roots: seq<string>) returns (ok: bool)
    ensures ok <==> AllWithin(values, roots)
  {
    hide WithinAny;
    for k := 0 to |values|
      invariant forall i :: 0 <= i < k ==> WithinAny(values[i], roots)
    {
      if !WithinAny(values[k], roots) {
        return false;
      }
    }
    return true;
  }

  method ValidatePathPolicy(p: Scope) returns (ok: bool)
    ensures ok <==> ValidPolicy(p)
  {
    hide ValidGroup, WithinAny;
    var groups := [p.readable, p.writable, p.prohibited];
    for k := 0 to |groups|
      invariant forall i :: 0 <= i < k ==> ValidGroup(groups[i])
    {
      var valid := ValidateGroup(groups[k]);
      if !valid {
        return false;
      }
    }
    assert ValidGroup(groups[0]) && ValidGroup(groups[1]) && ValidGroup(groups[2]);
    for k := 0 to |p.writable|
      invariant forall i :: 0 <= i < k ==> WithinAny(p.writable[i], p.readable) && !WithinAny(p.writable[i], p.prohibited)
    {
      if !WithinAny(p.writable[k], p.readable) || WithinAny(p.writable[k], p.prohibited) {
        return false;
      }
    }
    for k := 0 to |p.prohibited|
      invariant forall i :: 0 <= i < k ==> !WithinAny(p.prohibited[i], p.writable)
    {
      if WithinAny(p.prohibited[k], p.writable) {
        return false;
      }
    }
    return true;
  }

  // ----- Planning and implementation contracts -----

  predicate Overlap(a: string, b: string) {
    Within(a, b) || Within(b, a)
  }

  predicate ValidScope(s: Scope) {
    && s.readable != []
    && (forall i :: 0 <= i < |s.readable| ==> ValidRepoPath(s.readable[i]))
    && (forall i :: 0 <= i < |s.writable| ==> ValidRepoPath(s.writable[i]))
    && (forall i :: 0 <= i < |s.prohibited| ==> ValidRepoPath(s.prohibited[i]))
    && AllWithin(s.writable, s.readable)
    && (forall i, j :: 0 <= i < |s.writable| && 0 <= j < |s.prohibited| ==> !Overlap(s.writable[i], s.prohibited[j]))
  }

  method ValidatePathScopes(s: Scope) returns (ok: bool)
    ensures ok <==> ValidScope(s)
  {
    hide ValidRepoPath, Overlap, WithinAny;
    if s.readable == [] {
      return false;
    }
    var groups := [s.readable, s.writable, s.prohibited];
    for g := 0 to |groups|
      invariant forall h, i :: 0 <= h < g && 0 <= i < |groups[h]| ==> ValidRepoPath(groups[h][i])
    {
      for k := 0 to |groups[g]|
        invariant forall i :: 0 <= i < k ==> ValidRepoPath(groups[g][i])
      {
        if !ValidRepoPath(groups[g][k]) {
          BadGroup(s, groups, g, k);
          return false;
        }
      }
    }
    assert groups[0] == s.readable && groups[1] == s.writable && groups[2] == s.prohibited;
    var within := CheckAllWithin(s.writable, s.readable);
    if !within {
      return false;
    }
    for w := 0 to |s.writable|
      invariant forall i, j :: 0 <= i < w && 0 <= j < |s.prohibited| ==> !Overlap(s.writable[i], s.prohibited[j])
    {
      for q := 0 to |s.prohibited|
        invariant forall j :: 0 <= j < q ==> !Overlap(s.writable[w], s.prohibited[j])
      {
        if Overlap(s.writable[w], s.prohibited[q]) {
          return false;
        }
      }
    }
    return true;
  }

  lemma {:induction false} BadGroup(s: Scope, groups: seq<seq<string>>, g: nat, k: nat)
    requires groups == [s.readable, s.writable, s.prohibited] && g < 3 && k < |groups[g]|
    requires !ValidRepoPath(groups[g][k])
    ensures !ValidScope(s)
  {
    hide ValidRepoPath, AllWithin, Overlap;
  }

  /** A planned task is admitted when its own scope is sound and inside the request's. */
  predicate TaskAdmitted(task: Scope, request: Scope) {
    ValidScope(task) && AllWithin(task.readable, request.readable) && AllWithin(task.writable, request.writable)
  }

  /** The second look: inside the policy, and prohibiting at least what the policy does. */
  predicate PathsAllowed(task: Scope, policy: Scope) {
    && AllWithin(task.readable, policy.readable) && AllWithin(task.writable, policy.writable)
    && AllWithin(policy.prohibited, task.prohibited)
  }

  method ValidatePlannedPaths(task: Scope, policy: Scope) returns (ok: bool)
    ensures ok <==> PathsAllowed(task, policy)
  {
    hide AllWithin;
    ok := CheckAllWithin(task.readable, policy.readable);
    if ok {
      ok := CheckAllWithin(task.writable, policy.writable);
    }
    if ok {
      ok := CheckAllWithin(policy.prohibited, task.prohibited);
    }
  }

  predicate ChangeInScope(path: string, request: Scope) {
    ValidRepoPath(path) && WithinAny(path, request.writable) && !WithinAny(path, request.prohibited)
  }

  // ----- Preflight -----

  predicate IsControl(c: char) {
    c < ' ' || '\U{7F}' <= c <= '\U{9F}'
  }

  /** Normalizing the path gives the path itself. */
  predicate NormalPath(s: string) {
    && s != "" && !HasPrefix(s, "/") && '\\' !in s && (forall i :: 0 <= i < |s| ==> !IsControl(s[i]))
    && IsClean(s) && s != "." && s != ".." && !HasPrefix(s, "../") && ".git" !in Split(s)
  }

  datatype Limits = Limits(maxChangedFiles: nat, maxFileBytes: nat, maxTotalBytes: nat)

  /** A proposed change as preflight sees it: its path and its replacement bytes, if any. */
  datatype Draft = Draft(path: string, hasContent: bool, content: seq<bv8>)

  datatype Problem = TooMuch | UnsafePath | BinaryContent

  function Size(d: Draft): nat {
    if d.hasContent then |d.content| else 0
  }

  function TotalSize(ds: seq<Draft>): nat {
    if ds == [] then 0 else TotalSize(ds[..|ds| - 1]) + Size(ds[|ds| - 1])
  }

  function PathsOf(ds: seq<Draft>): seq<string> {
    seq(|ds|, i requires 0 <= i < |ds| => ds[i].path)
  }

  predicate ContentFits(d: Draft, limits: Limits) {
    d.hasContent ==> |d.content| <= limits.maxFileBytes && 0 !in d.content
  }

  /** The changes are pairwise different, normal and within the size limits. */
  predicate Sound(ds: seq<Draft>, limits: Limits) {
    && NoRepeats(PathsOf(ds))
    && (forall i :: 0 <= i < |ds| ==> NormalPath(ds[i].path) && ContentFits(ds[i], limits))
    && TotalSize(ds) <= limits.maxTotalBytes
  }

  predicate Preflight(ds: seq<Draft>, limits: Limits) {
    |ds| <= limits.maxChangedFiles && Sound(ds, limits)
  }

  /** What is wrong with the k-th change when nothing is wrong before it. */
  function FaultAt(ds: seq<Draft>, k: nat, limits: Limits): Problem
    requires k < |ds|
  {
    var d := ds[k];
    if !NormalPath(d.path) || d.path in PathsOf(ds[..k]) then UnsafePath
    else if d.hasContent && |d.content| > limits.maxFileBytes then TooMuch
    else if d.hasContent && 0 in d.content then BinaryContent
    else TooMuch
  }

  lemma {:induction false} TotalGrows(ds: seq<Draft>, k: nat)
    requires k <= |ds|
    ensures TotalSize(ds[..k]) <= TotalSize(ds)
    decreases |ds|
  {
    if k == |ds| {
      assert ds[..k] == ds;
    } else {
      TotalGrows(ds[..|ds| - 1], k);
      assert ds[..|ds| - 1][..k] == ds[..k];
    }
  }

  /** One more sound change. */
  lemma {:induction false} SoundGrows(ds: seq<Draft>, k: nat, limits: Limits)
    requires k < |ds| && Sound(ds[..k], limits)
    ensures Sound(ds[..k + 1], limits) <==>
      && NormalPath(ds[k].path) && ds[k].path !in PathsOf(ds[..k]) && ContentFits(ds[k], limits)
      && TotalSize(ds[..k]) + Size(ds[k]) <= limits.maxTotalBytes
  {
    hide NormalPath, ContentFits;
    var before, after := ds[..k], ds[..k + 1];
    assert after == before + [ds[k]] && after[..k] == before;
    assert PathsOf(after) == PathsOf(before) + [ds[k].path];
    if ds[k].path in PathsOf(before) {
      var i :| 0 <= i < k && PathsOf(before)[i] == ds[k].path;
      assert PathsOf(after)[i] == PathsOf(after)[k];
    }
  }

  lemma {:induction false} SoundPrefix(ds: seq<Draft>, k: nat, limits: Limits)
    requires k <= |ds| && Sound(ds, limits)
    ensures Sound(ds[..k], limits)
  {
    hide NormalPath, ContentFits;
    TotalGrows(ds, k);
    var paths, prefix := PathsOf(ds), PathsOf(ds[..k]);
    forall i, j | 0 <= i < j < |prefix|
      ensures prefix[i] != prefix[j]
    {
      assert prefix[i] == paths[i] && prefix[j] == paths[j];
    }
  }

  /** Accepts exactly the proposals within the limits whose changes are sound; otherwise it
      reports the problem of the first change that spoils it. */
  method PreflightChanges(ds: seq<Draft>, limits: Limits) returns (problem: Verdict, ghost at: nat)
    ensures problem.Fine? <==> Preflight(ds, limits)
    ensures |ds| > limits.maxChangedFiles ==> problem == Found(TooMuch)
    ensures problem.Found? && |ds| <= limits.maxChangedFiles ==>
      && at < |ds| && Sound(ds[..at], limits) && !Sound(ds[..at + 1], limits)
      && problem.what == FaultAt(ds, at, limits)
  {
    hide NormalPath, ContentFits, Sound;
    at := 0;
    if |ds| > limits.maxChangedFiles {
      return Found(TooMuch), 0;
    }
    var seen := {};
    var total := 0;
    NothingSound(ds, limits);
    for k := 0 to |ds|
      invariant seen == set i | 0 <= i < k :: ds[i].path
      invariant total == TotalSize(ds[..k]) && Sound(ds[..k], limits)
    {
      var d := ds[k];
      at := k;
      SoundGrows(ds, k, limits);
      assert d.path in seen <==> d.path in PathsOf(ds[..k]) by {
        SeenPaths(ds, k, d.path);
      }
      SpoiltForGood(ds, k, limits);
      FitsExactly(d, limits);
      if !NormalPath(d.path) || d.path in seen {
        return Found(UnsafePath), at;
      }
      seen := seen + {d.path};
      assert ds[..k + 1][..k] == ds[..k];
      if d.hasContent {
        if |d.content| > limits.maxFileBytes {
          return Found(TooMuch), at;
        }
        if 0 in d.content {
          return Found(BinaryContent), at;
        }
        total := total + |d.content|;
        if total > limits.maxTotalBytes {
          return Found(TooMuch), at;
        }
      } else {
        SoundTotal(ds[..k], limits);
      }
    }
    assert ds[..|ds|] == ds;
    return Fine, at;
  }

  datatype Verdict = Fine | Found(what: Problem)

  lemma {:induction false} NothingSound(ds: seq<Draft>, limits: Limits)
    ensures Sound(ds[..0], limits) && TotalSize(ds[..0]) == 0
  {
  }

  lemma {:induction false} FitsExactly(d: Draft, limits: Limits)
    ensures ContentFits(d, limits) <==> (d.hasContent ==> |d.content| <= limits.maxFileBytes && 0 !in d.content)
  {
  }

  lemma {:induction false} SoundTotal(ds: seq<Draft>, limits: Limits)
    requires Sound(ds, limits)
    ensures TotalSize(ds) <= limits.maxTotalBytes
  {
  }

  lemma {:induction false} SeenPaths(ds: seq<Draft>, k: nat, path: string)
    requires k <= |ds|
    ensures path in PathsOf(ds[..k]) <==> path in (set i | 0 <= i < k :: ds[i].path)
  {
    if path in PathsOf(ds[..k]) {
      var i :| 0 <= i < k && PathsOf(ds[..k])[i] == path;
      assert ds[i].path == path;
    }
    if path in (set i | 0 <= i < k :: ds[i].path) {
      var i :| 0 <= i < k && ds[i].path == path;
      assert PathsOf(ds[..k])[i] == path;
    }
  }

  lemma {:induction false} SpoiltForGood(ds: seq<Draft>, k: nat, limits: Limits)
    requires k < |ds|
    ensures !Sound(ds[..k + 1], limits) ==> !Sound(ds, limits)
  {
    hide Sound;
    if Sound(ds, limits) {
      SoundPrefix(ds, k + 1, limits);
    }
  }

  // ----- Authority only narrows -----

  /** A change accepted for a task that was planned under a valid policy lies under a
      readable and a writable root of that policy, under none of its prohibited roots, and
      neither climbs out of the repository nor enters its control directory. */
  lemma {:induction false} AuthorityOnlyNarrows(policy: Scope, request: Scope, task: Scope, path: string)
    requires ValidPolicy(policy) && request == policy
    requires TaskAdmitted(task, request) && PathsAllowed(task, policy)
    requires ChangeInScope(path, task) && NormalPath(path)
    ensures WithinAny(path, policy.writable) && WithinAny(path, policy.readable)
    ensures !WithinAny(path, policy.prohibited)
    ensures !Climbs(path) && ".git" !in Split(path)
  {
    hide WithinAny, ValidGroup, ValidScope;
    WithinAnyTransitive(path, task.writable, policy.writable);
    WithinAnyTransitive(path, policy.writable, policy.readable);
    if WithinAny(path, policy.prohibited) {
      WithinAnyTransitive(path, policy.prohibited, task.prohibited);
    }
    RepoPathClimbsExactly(path);
  }

  /** The same in terms of path components. */
  lemma {:induction false} AuthorityByComponents(policy: Scope, request: Scope, task: Scope, path: string)
      returns (writable: string, readable: string)
    requires ValidPolicy(policy) && request == policy
    requires TaskAdmitted(task, request) && PathsAllowed(task, policy)
    requires ChangeInScope(path, task) && NormalPath(path)
    ensures writable in policy.writable && Split(writable) <= Split(path)
    ensures readable in policy.readable && Split(readable) <= Split(path)
    ensures forall q :: q in policy.prohibited ==> !(Split(q) <= Split(path))
  {
    hide ValidPolicy, TaskAdmitted, PathsAllowed, ChangeInScope, NormalPath, Split;
    AuthorityOnlyNarrows(policy, request, task, path);
    var i :| 0 <= i < |policy.writable| && Within(path, policy.writable[i]);
    var j :| 0 <= j < |policy.readable| && Within(path, policy.readable[j]);
    writable, readable := policy.writable[i], policy.readable[j];
    WithinIsComponentPrefix(path, writable);
    WithinIsComponentPrefix(path, readable);
    forall q | q in policy.prohibited
      ensures !(Split(q) <= Split(path))
    {
      WithinIsComponentPrefix(path, q);
      var k :| 0 <= k < |policy.prohibited| && policy.prohibited[k] == q;
    }
  }
}
