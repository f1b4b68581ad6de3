/** The check of a candidate commit against the proposal it claims to implement. A commit
    is a tree of entries; the diff listing is what comparing two trees gives. */
module Candidate {
  import opened Kernel
  import opened TaskGraph

  /** A SHA-256 digest, which determines the bytes it was taken of. */
  datatype Digest = Sha256(body: string)

  datatype Entry = Entry(mode: string, body: string)

  type Tree = map<string, Entry>

  predicate Regular(e: Entry) {
    e.mode == "100644" || e.mode == "100755"
  }

  /** Changing only the permission of a regular file is a modification, not a type change. */
  function Kind(e: Entry): string {
    if Regular(e) then "regular" else e.mode
  }

  function Lookup(tree: Tree, path: string): Option<Entry> {
    if path in tree then Some(tree[path]) else None
  }

  /** The status letter the diff lists a path with, if it lists it. */
  function Status(base: Tree, candidate: Tree, path: string): Option<string> {
    match (Lookup(base, path), Lookup(candidate, path))
    case (None, None) => None
    case (None, Some(_)) => Some("A")
    case (Some(_), None) => Some("D")
    case (Some(b), Some(c)) => if b == c then None else if Kind(b) == Kind(c) then Some("M") else Some("T")
  }

  function Diff(base: Tree, candidate: Tree): map<string, string> {
    map path | path in base.Keys + candidate.Keys && Status(base, candidate, path).Some? ::
      Status(base, candidate, path).value
  }

  // ----- The listing -----

  /** The fields of a listing: status and path in turn, and an empty one after the last
      terminator. */
  function Fields(listing: seq<(string, string)>): seq<string> {
    if listing == [] then [""] else [listing[0].0, listing[0].1] + Fields(listing[1..])
  }

  /** Every pair has a status, and no path is listed twice. */
  ghost predicate Proper(listing: seq<(string, string)>) {
    && (forall i :: 0 <= i < |listing| ==> listing[i].0 != "")
    && (forall i, j :: 0 <= i < j < |listing| ==> listing[i].1 != listing[j].1)
  }

  /** The map has exactly the listed pairs. */
  ghost predicate Says(statuses: map<string, string>, listing: seq<(string, string)>) {
    forall path, status {:trigger (status, path) in listing} ::
      (path in statuses && statuses[path] == status) <==> (status, path) in listing
  }

  /** Reads field pairs from a position, later pairs winning. */
  function ReadFrom(fields: seq<string>, index: nat, found: map<string, string>): map<string, string>
    decreases |fields| - index
  {
    if index + 1 >= |fields| then found
    else ReadFrom(fields, index + 2, if fields[index] == "" then found else found[fields[index + 1] := fields[index]])
  }

  /** Whatever listing the fields come from, reading them gives back exactly its pairs; other
      fields are read in twos. */
  method CandidatePathStatuses(fields: seq<string>) returns (statuses: map<string, string>)
    ensures statuses == ReadFrom(fields, 0, map[])
    ensures forall listing {:trigger Fields(listing)} :: Proper(listing) && fields == Fields(listing) ==> Says(statuses, listing)
  {
    hide Proper, Says;
    statuses := map[];
    var index := 0;
    while index + 1 < |fields|
      invariant ReadFrom(fields, index, statuses) == ReadFrom(fields, 0, map[])
    {
      if fields[index] != "" {
        statuses := statuses[fields[index + 1] := fields[index]];
      }
      index := index + 2;
    }
    forall listing | Proper(listing) && fields == Fields(listing)
      ensures Says(statuses, listing)
    {
      ListingRoundTrip(listing);
    }
  }

  /** After the first k pairs. */
  ghost function FirstPairs(listing: seq<(string, string)>, k: nat): map<string, string>
    requires k <= |listing|
  {
    if k == 0 then map[] else FirstPairs(listing, k - 1)[listing[k - 1].1 := listing[k - 1].0]
  }

  lemma {:induction false} FirstPairsSay(listing: seq<(string, string)>, k: nat)
    requires Proper(listing) && k <= |listing|
    ensures Says(FirstPairs(listing, k), listing[..k])
  {
    if k > 0 {
      FirstPairsSay(listing, k - 1);
      assert listing[..k] == listing[..k - 1] + [listing[k - 1]];
      var before, pair := FirstPairs(listing, k - 1), listing[k - 1];
      forall path | path in before
        ensures path != pair.1
      {
        assert (before[path], path) in listing[..k - 1];
      }
    }
  }

  lemma {:induction false} ReadsListing(prefix: seq<string>, listing: seq<(string, string)>, k: nat)
    requires k <= |listing| && forall i :: 0 <= i < |listing| ==> listing[i].0 != ""
    ensures ReadFrom(prefix + Fields(listing[k..]), |prefix|, FirstPairs(listing, k)) == FirstPairs(listing, |listing|)
    decreases |listing| - k
  {
    var rest := listing[k..];
    var all := prefix + Fields(rest);
    if rest != [] {
      var head := rest[0];
      var longer := prefix + [head.0, head.1];
      assert rest[1..] == listing[k + 1..];
      assert all == longer + Fields(listing[k + 1..]);
      assert all[|prefix|] == head.0 && all[|prefix| + 1] == head.1;
      ReadsListing(longer, listing, k + 1);
    }
  }

  /** Reading a listing back gives exactly its pairs. */
  lemma {:induction false} ListingRoundTrip(listing: seq<(string, string)>)
    requires Proper(listing)
    ensures Says(ReadFrom(Fields(listing), 0, map[]), listing)
  {
    hide Says;
    ReadsListing([], listing, 0);
    assert listing[0..] == listing && [] + Fields(listing) == Fields(listing);
    FirstPairsSay(listing, |listing|);
    assert listing[..|listing|] == listing;
  }

  /** The listing names each differing path once, with its status. */
  ghost predicate Lists(listing: seq<(string, string)>, base: Tree, candidate: Tree) {
    && (forall i, j :: 0 <= i < j < |listing| ==> listing[i].1 != listing[j].1)
    && Says(Diff(base, candidate), listing)
  }

  lemma {:induction false} ListedStatus(listing: seq<(string, string)>, base: Tree, candidate: Tree)
    requires Lists(listing, base, candidate)
    ensures Proper(listing)
  {
    forall i | 0 <= i < |listing|
      ensures listing[i].0 != ""
    {
      assert (listing[i].0, listing[i].1) in listing;
    }
  }

  lemma {:induction false} SayTheSame(a: map<string, string>, b: map<string, string>, listing: seq<(string, string)>)
    requires Says(a, listing) && Says(b, listing)
    ensures a == b
  {
    forall path | path in a
      ensures path in b && b[path] == a[path]
    {
      assert (a[path], path) in listing;
    }
    forall path | path in b
      ensures path in a
    {
      assert (b[path], path) in listing;
    }
  }

  // ----- The check -----

  datatype FileOperation = CreateFile | UpdateFile | DeleteFile

  datatype FileChange = FileChange(operation: FileOperation, path: string, content: Option<string>, expected: Digest)

  function Wanted(operation: FileOperation): string {
    match operation
    case CreateFile => "A"
    case UpdateFile => "M"
    case DeleteFile => "D"
  }

  predicate BeforeVerified(base: Tree, change: FileChange) {
    change.operation != CreateFile ==>
      change.path in base && Regular(base[change.path]) && Sha256(base[change.path].body) == change.expected
  }

  predicate AfterVerified(base: Tree, candidate: Tree, change: FileChange) {
    change.operation != DeleteFile ==>
      && change.path in candidate && Regular(candidate[change.path]) && change.content.Some?
      && Sha256(candidate[change.path].body) == Sha256(change.content.value)
      && (change.operation == CreateFile ==> candidate[change.path].mode == "100644")
      && (change.operation == UpdateFile ==>
            change.path in base && candidate[change.path].mode == base[change.path].mode)
  }

  predicate ChangeVerified(base: Tree, candidate: Tree, statuses: map<string, string>, change: FileChange) {
    && change.path in statuses && statuses[change.path] == Wanted(change.operation)
    && BeforeVerified(base, change) && AfterVerified(base, candidate, change)
  }

  /** The diff lists as many paths as there are changes, and every change is among them. */
  predicate DiffVerified(base: Tree, candidate: Tree, changes: seq<FileChange>) {
    && |Diff(base, candidate)| == |changes|
    && (forall i :: 0 <= i < |changes| ==> ChangeVerified(base, candidate, Diff(base, candidate), changes[i]))
  }

  /** Decides from the listing of the two trees, read field by field. */
  method VerifyCandidateDiff(base: Tree, candidate: Tree, fields: seq<string>, changes: seq<FileChange>,
                             ghost listing: seq<(string, string)>) returns (ok: bool)
    requires fields == Fields(listing) && Lists(listing, base, candidate)
    ensures ok <==> DiffVerified(base, candidate, changes)
  {
    hide ChangeVerified, Diff, Lists, Proper, Says;
    var statuses := CandidatePathStatuses(fields);
    ListedStatus(listing, base, candidate);
    assert Says(Diff(base, candidate), listing) by {
      ListedSays(listing, base, candidate);
    }
    SayTheSame(statuses, Diff(base, candidate), listing);
    if |statuses| != |changes| {
      return false;
    }
    for k := 0 to |changes|
      invariant forall i :: 0 <= i < k ==> ChangeVerified(base, candidate, statuses, changes[i])
    {
      if !ChangeVerified(base, candidate, statuses, changes[k]) {
        return false;
      }
    }
    return true;
  }

  lemma {:induction false} ListedSays(listing: seq<(string, string)>, base: Tree, candidate: Tree)
    requires Lists(listing, base, candidate)
    ensures Says(Diff(base, candidate), listing)
  {
    hide Diff, Says;
  }

  // ----- What passing means -----

  function ChangedPaths(changes: seq<FileChange>): seq<string> {
    seq(|changes|, i requires 0 <= i < |changes| => changes[i].path)
  }

  lemma {:induction false} PathsAreListed(base: Tree, candidate: Tree, changes: seq<FileChange>)
    requires DiffVerified(base, candidate, changes)
    ensures Elements(ChangedPaths(changes)) <= Diff(base, candidate).Keys
  {
    hide Diff, BeforeVerified, AfterVerified;
    forall path | path in Elements(ChangedPaths(changes))
      ensures path in Diff(base, candidate)
    {
      var i :| 0 <= i < |ChangedPaths(changes)| && ChangedPaths(changes)[i] == path;
      assert ChangeVerified(base, candidate, Diff(base, candidate), changes[i]);
    }
  }

  /** A passing candidate changes exactly the proposed paths if and only if the proposal
      names no path twice. */
  lemma {:induction false} ExactPathsExactlyWhenDistinct(base: Tree, candidate: Tree, changes: seq<FileChange>)
    requires DiffVerified(base, candidate, changes)
    ensures Diff(base, candidate).Keys == Elements(ChangedPaths(changes)) <==> Distinct(ChangedPaths(changes))
  {
    hide Diff, ChangeVerified, Distinct;
    var listed, named := Diff(base, candidate).Keys, Elements(ChangedPaths(changes));
    assert |listed| == |Diff(base, candidate)|;
    PathsAreListed(base, candidate, changes);
    SubsetCount(named, listed);
    if Distinct(ChangedPaths(changes)) {
      DistinctCount(ChangedPaths(changes));
    } else {
      RepeatsShrink(ChangedPaths(changes));
    }
  }

  lemma {:induction false} ElementsCount(s: seq<string>)
    ensures |Elements(s)| <= |s|
  {
    if s != [] {
      var n := |s| - 1;
      ElementsCount(s[..n]);
      ElementsSnoc(s[..n], s[n]);
      assert s[..n] + [s[n]] == s;
    }
  }

  lemma {:induction false} RepeatsShrink(s: seq<string>)
    requires !Distinct(s)
    ensures |Elements(s)| < |s|
  {
    var i, j :| 0 <= i < j < |s| && s[i] == s[j];
    var rest := s[..j] + s[j + 1..];
    ElementsCount(rest);
    assert Elements(rest) == Elements(s) by {
      forall x | x in s
        ensures x in rest
      {
        var k :| 0 <= k < |s| && s[k] == x;
        assert k < j ==> rest[k] == x;
        assert k > j ==> rest[k - 1] == x;
        assert k == j ==> rest[i] == x;
      }
    }
  }

  /** Naming a path twice lets a change nobody proposed pass. */
  lemma {:induction false} RepeatedPathHidesAnother() returns (candidate: Tree, changes: seq<FileChange>)
    ensures DiffVerified(map[], candidate, changes)
    ensures "b" in Diff(map[], candidate) && "b" !in ChangedPaths(changes)
  {
    var a := Entry("100644", "x");
    candidate := map["a" := a, "b" := a];
    var change := FileChange(CreateFile, "a", Some("x"), Sha256(""));
    changes := [change, change];
    assert ChangedPaths(changes) == ["a", "a"];
    assert Diff(map[], candidate) == map["a" := "A", "b" := "A"];
    assert |Diff(map[], candidate).Keys| == |{"a", "b"}|;
  }

  /** What a change makes of the entry at its path. */
  function Outcome(base: Tree, change: FileChange): Option<Entry> {
    match change.operation
    case CreateFile => if change.content.Some? then Some(Entry("100644", change.content.value)) else None
    case UpdateFile =>
      if change.content.Some? && change.path in base
      then Some(Entry(base[change.path].mode, change.content.value)) else None
    case DeleteFile => None
  }

  /** The change does something, to the file it was proposed against. */
  predicate Effective(base: Tree, change: FileChange) {
    match change.operation
    case CreateFile => change.path !in base && change.content.Some?
    case UpdateFile => BeforeVerified(base, change) && change.content.Some? && change.content.value != base[change.path].body
    case DeleteFile => BeforeVerified(base, change)
  }

  /** The candidate has each change's outcome at its path and the base everywhere else. */
  ghost predicate Implements(base: Tree, candidate: Tree, changes: seq<FileChange>) {
    && (forall i :: 0 <= i < |changes| ==> Lookup(candidate, changes[i].path) == Outcome(base, changes[i]))
    && (forall path {:trigger Lookup(candidate, path)} :: path !in ChangedPaths(changes) ==>
          Lookup(candidate, path) == Lookup(base, path))
  }

  lemma {:induction false} VerifiedChange(base: Tree, candidate: Tree, change: FileChange)
    ensures ChangeVerified(base, candidate, Diff(base, candidate), change)
      <==> Effective(base, change) && Lookup(candidate, change.path) == Outcome(base, change)
  {
  }

  lemma {:induction false} UnlistedAgrees(base: Tree, candidate: Tree, path: string)
    ensures path !in Diff(base, candidate) <==> Lookup(candidate, path) == Lookup(base, path)
  {
  }

  lemma {:induction false} ImplementedPathsAreListed(base: Tree, candidate: Tree, changes: seq<FileChange>)
    requires Implements(base, candidate, changes) && forall i :: 0 <= i < |changes| ==> Effective(base, changes[i])
    ensures Diff(base, candidate).Keys == Elements(ChangedPaths(changes))
  {
    hide Diff, Effective, Outcome, Lookup;
    forall path
      ensures path in Diff(base, candidate) <==> path in ChangedPaths(changes)
    {
      if path in ChangedPaths(changes) {
        var i :| 0 <= i < |ChangedPaths(changes)| && ChangedPaths(changes)[i] == path;
        VerifiedChange(base, candidate, changes[i]);
      } else {
        UnlistedAgrees(base, candidate, path);
        assert Lookup(candidate, path) == Lookup(base, path);
      }
    }
  }

  /** For a proposal without repeated paths, the check passes exactly when every change is
      effective and the candidate is the base with exactly those changes, down to the
      content and mode of every file. */
  lemma {:induction false} CandidateIsTheProposal(base: Tree, candidate: Tree, changes: seq<FileChange>)
    requires Distinct(ChangedPaths(changes))
    ensures DiffVerified(base, candidate, changes)
      <==> Implements(base, candidate, changes) && forall i :: 0 <= i < |changes| ==> Effective(base, changes[i])
  {
    hide Diff, ChangeVerified, Effective, Outcome, Lookup, Distinct;
    forall i | 0 <= i < |changes|
      ensures ChangeVerified(base, candidate, Diff(base, candidate), changes[i])
        <==> Effective(base, changes[i]) && Lookup(candidate, changes[i].path) == Outcome(base, changes[i])
    {
      VerifiedChange(base, candidate, changes[i]);
    }
    if DiffVerified(base, candidate, changes) {
      ExactPathsExactlyWhenDistinct(base, candidate, changes);
      forall path | path !in ChangedPaths(changes)
        ensures Lookup(candidate, path) == Lookup(base, path)
      {
        UnlistedAgrees(base, candidate, path);
      }
    }
    if Implements(base, candidate, changes) && forall i :: 0 <= i < |changes| ==> Effective(base, changes[i]) {
      ImplementedPathsAreListed(base, candidate, changes);
      DistinctCount(ChangedPaths(changes));
      assert |Diff(base, candidate)| == |Diff(base, candidate).Keys|;
    }
  }
}
