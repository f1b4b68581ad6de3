/** The dependency graph of a plan. The kernel decides acyclicity with Kahn's
    algorithm and the planning contract with a depth-first search; both are proved
    against the same notion of a cycle. */
module TaskGraph {
  import opened Kernel

  datatype Dependency = Dependency(task: Id, dependsOn: Id)

  ghost predicate Leads(edges: set<Dependency>, w: seq<Id>, i: int) {
    0 <= i < |w| - 1 && Dependency(w[i], w[i + 1]) in edges
  }

  /** Each element of the walk depends on the next one. */
  ghost predicate IsWalk(edges: set<Dependency>, w: seq<Id>) {
    forall i :: 0 <= i < |w| - 1 ==> Leads(edges, w, i)
  }

  ghost predicate IsCycle(edges: set<Dependency>, c: seq<Id>) {
    |c| >= 2 && c[0] == c[|c| - 1] && IsWalk(edges, c)
  }

  ghost predicate Acyclic(edges: set<Dependency>) {
    forall c :: !IsCycle(edges, c)
  }

  /** Every task ranks above everything it depends on. */
  ghost predicate IsRank(edges: set<Dependency>, rank: map<Id, nat>) {
    forall e :: e in edges ==>
      e.task in rank && e.dependsOn in rank && rank[e.dependsOn] < rank[e.task]
  }

  ghost predicate Distinct<T(!new)>(s: seq<T>) {
    forall i, j :: 0 <= i < j < |s| ==> s[i] != s[j]
  }

  ghost function Elements<T(!new)>(s: seq<T>): set<T> {
    set x | x in s
  }

  lemma {:induction false} ElementsSnoc<T(!new)>(s: seq<T>, x: T)
    ensures Elements(s + [x]) == Elements(s) + {x}
  {
  }

  lemma {:induction false} DistinctCount<T(!new)>(s: seq<T>)
    requires Distinct(s)
    ensures |Elements(s)| == |s|
  {
    if s != [] {
      var rest, last := s[..|s| - 1], s[|s| - 1];
      assert last !in rest;
      DistinctCount(rest);
      ElementsSnoc(rest, last);
      assert rest + [last] == s;
    }
  }

  lemma {:induction false} SubsetCount<T>(a: set<T>, b: set<T>)
    requires a <= b
    ensures |a| <= |b|
    ensures |a| == |b| ==> a == b
  {
    assert |b| == |a| + |b - a| by {
      assert b == a + (b - a);
    }
  }

  /** Along a walk the rank strictly falls. */
  lemma {:induction false} RankFallsAlongWalk(edges: set<Dependency>, rank: map<Id, nat>, w: seq<Id>)
    requires IsRank(edges, rank) && IsWalk(edges, w) && |w| >= 2
    ensures w[0] in rank && w[|w| - 1] in rank && rank[w[|w| - 1]] < rank[w[0]]
  {
    var n := |w|;
    assert Leads(edges, w, n - 2);
    if n > 2 {
      var v := w[..n - 1];
      forall i | 0 <= i < |v| - 1 ensures Leads(edges, v, i) {
        assert Leads(edges, w, i);
      }
      RankFallsAlongWalk(edges, rank, v);
    }
  }

  lemma {:induction false} RankExcludesCycles(edges: set<Dependency>, rank: map<Id, nat>)
    requires IsRank(edges, rank)
    ensures Acyclic(edges)
  {
    forall c ensures !IsCycle(edges, c) {
      if IsCycle(edges, c) {
        RankFallsAlongWalk(edges, rank, c);
      }
    }
  }

  lemma {:induction false} ExtendWalk(edges: set<Dependency>, w: seq<Id>, next: Id)
    requires w != [] && IsWalk(edges, w) && Dependency(w[|w| - 1], next) in edges
    ensures IsWalk(edges, w + [next])
  {
    var v := w + [next];
    forall i | 0 <= i < |v| - 1 ensures Leads(edges, v, i) {
      if i < |w| - 1 {
        assert Leads(edges, w, i);
      }
    }
  }

  lemma {:induction false} WalkSuffix(edges: set<Dependency>, w: seq<Id>, k: nat)
    requires IsWalk(edges, w) && k <= |w|
    ensures IsWalk(edges, w[k..])
  {
    var v := w[k..];
    forall i | 0 <= i < |v| - 1 ensures Leads(edges, v, i) {
      assert Leads(edges, w, k + i);
    }
  }

  /** A walk that steps back onto itself closes a cycle. */
  lemma {:induction false} CloseWalk(edges: set<Dependency>, w: seq<Id>, next: Id) returns (c: seq<Id>)
    requires w != [] && IsWalk(edges, w) && Dependency(w[|w| - 1], next) in edges && next in w
    ensures IsCycle(edges, c)
  {
    var i :| 0 <= i < |w| && w[i] == next;
    WalkSuffix(edges, w, i);
    ExtendWalk(edges, w[i..], next);
    c := w[i..] + [next];
  }

  ghost predicate DependsWithin(edges: set<Dependency>, stuck: set<Id>, x: Id) {
    exists y :: y in stuck && Dependency(x, y) in edges
  }

  /** A nonempty finite set whose every member depends on a member holds a cycle:
      extend a repetition-free walk until it must revisit itself. */
  lemma {:induction false} WalkIntoCycle(edges: set<Dependency>, stuck: set<Id>, w: seq<Id>)
      returns (c: seq<Id>)
    requires forall x {:trigger DependsWithin(edges, stuck, x)} :: x in stuck ==> DependsWithin(edges, stuck, x)
    requires w != [] && Distinct(w) && IsWalk(edges, w) && Elements(w) <= stuck
    ensures IsCycle(edges, c)
    decreases |stuck| - |w|
  {
    var last := w[|w| - 1];
    assert last in Elements(w);
    assert DependsWithin(edges, stuck, last);
    var next :| next in stuck && Dependency(last, next) in edges;
    if next in w {
      c := CloseWalk(edges, w, next);
    } else {
      var longer := w + [next];
      ExtendWalk(edges, w, next);
      assert Elements(longer) == Elements(w) + {next};
      DistinctCount(longer);
      SubsetCount(Elements(longer), stuck);
      c := WalkIntoCycle(edges, stuck, longer);
    }
  }

  // ----- Kahn's algorithm -----

  /** Prerequisites of `x` that are not among `done`. */
  ghost function Unmet(edges: set<Dependency>, x: Id, done: set<Id>): set<Dependency> {
    set e | e in edges && e.task == x && e.dependsOn !in done
  }

  function Degree(incoming: map<Id, nat>, id: Id): nat {
    if id in incoming then incoming[id] else 0
  }

  function Dependents(adjacency: map<Id, seq<Id>>, id: Id): seq<Id> {
    if id in adjacency then adjacency[id] else []
  }

  /** The tables describe the edges: in-degrees count prerequisites, and adjacency
      lists each dependent exactly once. */
  ghost predicate Describes(edges: set<Dependency>, incoming: map<Id, nat>, adjacency: map<Id, seq<Id>>) {
    && (forall x :: Degree(incoming, x) == |Unmet(edges, x, {})|)
    && (forall p :: Distinct(Dependents(adjacency, p)))
    && (forall p, x :: x in Dependents(adjacency, p) <==> Dependency(x, p) in edges)
  }

  /** The dependency list is admissible: known tasks, no self edge, no repetition. */
  ghost predicate ValidDependencies(nodes: set<Id>, dependencies: seq<Dependency>) {
    && (forall i :: 0 <= i < |dependencies| ==>
          && dependencies[i].task in nodes
          && dependencies[i].dependsOn in nodes
          && dependencies[i].task != dependencies[i].dependsOn)
    && Distinct(dependencies)
  }

  /** Builds the in-degree and adjacency tables, refusing an inadmissible list. */
  method PlannedTaskGraph(nodes: set<Id>, dependencies: seq<Dependency>)
      returns (ok: bool, incoming: map<Id, nat>, adjacency: map<Id, seq<Id>>)
    ensures ok <==> ValidDependencies(nodes, dependencies)
    ensures ok ==> Describes(Elements(dependencies), incoming, adjacency)
  {
    hide Describes, ValidDependencies;
    incoming, adjacency := map[], map[];
    var edges: set<Dependency> := {};
    DescribesNothing();
    NothingValid(nodes);
    for k := 0 to |dependencies|
      invariant ValidDependencies(nodes, dependencies[..k])
      invariant edges == Elements(dependencies[..k])
      invariant Describes(edges, incoming, adjacency)
    {
      var d := dependencies[k];
      assert dependencies[..k + 1] == dependencies[..k] + [d];
      ValidGrows(nodes, dependencies[..k], d);
      if d.task !in nodes || d.dependsOn !in nodes || d.task == d.dependsOn || d in edges {
        ValidPrefix(nodes, dependencies, k + 1);
        return false, incoming, adjacency;
      }
      DescribesGrows(edges, incoming, adjacency, d);
      incoming := incoming[d.task := Degree(incoming, d.task) + 1];
      adjacency := adjacency[d.dependsOn := Dependents(adjacency, d.dependsOn) + [d.task]];
      edges := edges + {d};
    }
    assert dependencies[..|dependencies|] == dependencies;
    ok := true;
  }

  lemma {:induction false} NothingValid(nodes: set<Id>)
    ensures ValidDependencies(nodes, [])
  {
  }

  lemma {:induction false} ValidGrows(nodes: set<Id>, s: seq<Dependency>, d: Dependency)
    requires ValidDependencies(nodes, s)
    ensures Elements(s + [d]) == Elements(s) + {d}
    ensures ValidDependencies(nodes, s + [d]) <==>
            d.task in nodes && d.dependsOn in nodes && d.task != d.dependsOn && d !in Elements(s)
  {
    var t := s + [d];
    assert t[|s|] == d;
    if ValidDependencies(nodes, t) {
      forall i | 0 <= i < |s| ensures s[i] != d {
        assert t[i] != t[|s|];
      }
    }
  }

  lemma {:induction false} ValidPrefix(nodes: set<Id>, s: seq<Dependency>, k: nat)
    requires k <= |s|
    ensures ValidDependencies(nodes, s) ==> ValidDependencies(nodes, s[..k])
  {
  }

  lemma {:induction false} UnmetGrows(edges: set<Dependency>, d: Dependency, x: Id)
    requires d !in edges
    ensures |Unmet(edges + {d}, x, {})| == |Unmet(edges, x, {})| + (if x == d.task then 1 else 0)
  {
    if x == d.task {
      assert Unmet(edges + {d}, x, {}) == Unmet(edges, x, {}) + {d};
    } else {
      assert Unmet(edges + {d}, x, {}) == Unmet(edges, x, {});
    }
  }

  lemma {:induction false} DescribesNothing()
    ensures Describes({}, map[], map[])
  {
    assert forall x :: Unmet({}, x, {}) == {};
  }

  lemma {:induction false} DescribesGrows(edges: set<Dependency>, incoming: map<Id, nat>, adjacency: map<Id, seq<Id>>, d: Dependency)
    requires Describes(edges, incoming, adjacency) && d !in edges
    ensures Describes(edges + {d},
                      incoming[d.task := Degree(incoming, d.task) + 1],
                      adjacency[d.dependsOn := Dependents(adjacency, d.dependsOn) + [d.task]])
  {
    var incoming' := incoming[d.task := Degree(incoming, d.task) + 1];
    var adjacency' := adjacency[d.dependsOn := Dependents(adjacency, d.dependsOn) + [d.task]];
    forall x ensures Degree(incoming', x) == |Unmet(edges + {d}, x, {})| {
      UnmetGrows(edges, d, x);
    }
    assert d.task !in Dependents(adjacency, d.dependsOn);
    forall p ensures Distinct(Dependents(adjacency', p)) {
      assert Distinct(Dependents(adjacency, p));
    }
    forall p, x ensures x in Dependents(adjacency', p) <==> Dependency(x, p) in edges + {d} {
      assert x in Dependents(adjacency, p) <==> Dependency(x, p) in edges;
    }
  }

  /** Degrees while the dependents of `id` are being relaxed: those in `seen` no
      longer count `id`, and `frontier` (the dequeued and the queued tasks) holds
      exactly the tasks whose degree is zero. */
  ghost predicate Relaxed(nodes: set<Id>, edges: set<Dependency>, degrees: map<Id, nat>, frontier: seq<Id>,
                          done: set<Id>, id: Id, seen: set<Id>)
  {
    && degrees.Keys == nodes
    && (forall x :: x in nodes ==>
          degrees[x] == |Unmet(edges, x, if x in seen then done + {id} else done)|)
    && Distinct(frontier)
    && (forall x :: x in frontier <==> x in nodes && degrees[x] == 0)
  }

  lemma {:induction false} RelaxOne(nodes: set<Id>, edges: set<Dependency>, degrees: map<Id, nat>, frontier: seq<Id>,
                 done: set<Id>, id: Id, seen: set<Id>, x: Id)
    requires Relaxed(nodes, edges, degrees, frontier, done, id, seen)
    requires x in nodes && x !in seen && Dependency(x, id) in edges && id !in done
    ensures x in degrees && degrees[x] >= 1
    ensures Relaxed(nodes, edges, degrees[x := degrees[x] - 1],
                    if degrees[x] == 1 then frontier + [x] else frontier, done, id, seen + {x})
  {
    assert Unmet(edges, x, done) == Unmet(edges, x, done + {id}) + {Dependency(x, id)};
  }

  /** Once every dependent has been relaxed, `id` counts as done. */
  lemma {:induction false} RelaxAll(nodes: set<Id>, edges: set<Dependency>, degrees: map<Id, nat>, frontier: seq<Id>,
                 done: set<Id>, id: Id, seen: set<Id>)
    requires Relaxed(nodes, edges, degrees, frontier, done, id, seen)
    requires forall x :: Dependency(x, id) in edges ==> x in seen
    ensures Relaxed(nodes, edges, degrees, frontier, done + {id}, Malformed(""), {})
  {
    forall x | x in nodes ensures degrees[x] == |Unmet(edges, x, done + {id})| {
      if x !in seen {
        assert Dependency(x, id) !in edges;
        assert Unmet(edges, x, done) == Unmet(edges, x, done + {id});
      }
    }
  }

  /** Every prerequisite of a dequeued task was dequeued before it. */
  ghost predicate Ordered(edges: set<Dependency>, done: seq<Id>) {
    forall i, e :: 0 <= i < |done| && e in edges && e.task == done[i] ==> e.dependsOn in done[..i]
  }

  lemma {:induction false} OrderedGrows(edges: set<Dependency>, done: seq<Id>, id: Id)
    requires Ordered(edges, done) && |Unmet(edges, id, Elements(done))| == 0
    ensures Ordered(edges, done + [id])
  {
    var longer := done + [id];
    forall i, e | 0 <= i < |longer| && e in edges && e.task == longer[i] ensures e.dependsOn in longer[..i] {
      assert e !in Unmet(edges, id, Elements(done));
      if i < |done| {
        assert longer[..i] == done[..i];
      } else {
        assert longer[..i] == done;
      }
    }
  }

  ghost function Position(s: seq<Id>, x: Id): nat
    requires x in s
    ensures Position(s, x) < |s| && s[Position(s, x)] == x
  {
    var i :| 0 <= i < |s| && s[i] == x;
    i
  }

  lemma {:induction false} OrderRanks(edges: set<Dependency>, done: seq<Id>) returns (rank: map<Id, nat>)
    requires Distinct(done) && Ordered(edges, done)
    requires forall e :: e in edges ==> e.task in done
    ensures IsRank(edges, rank)
  {
    rank := map x | x in done :: Position(done, x);
    forall e | e in edges
      ensures e.task in rank && e.dependsOn in rank && rank[e.dependsOn] < rank[e.task]
    {
      var i := Position(done, e.task);
      assert e.dependsOn in done[..i];
      var j :| 0 <= j < i && done[j] == e.dependsOn;
    }
  }

  lemma {:induction false} StuckHoldsCycle(nodes: set<Id>, edges: set<Dependency>, done: set<Id>) returns (c: seq<Id>)
    requires forall e :: e in edges ==> e.dependsOn in nodes
    requires nodes - done != {}
    requires forall x {:trigger Unmet(edges, x, done)} :: x in nodes - done ==> Unmet(edges, x, done) != {}
    ensures IsCycle(edges, c)
  {
    hide IsCycle;
    var stuck := nodes - done;
    forall x | x in stuck ensures DependsWithin(edges, stuck, x) {
      assert Unmet(edges, x, done) != {};
      var e :| e in Unmet(edges, x, done);
      assert e == Dependency(x, e.dependsOn) && e.dependsOn in stuck;
    }
    var x :| x in stuck;
    c := WalkIntoCycle(edges, stuck, [x]);
  }

  /** Kahn's loop: true exactly when the graph has no cycle. A ranking of the tasks
      witnesses a positive answer, an actual cycle a negative one. */
  method TaskGraphAcyclic(nodes: set<Id>, incoming: map<Id, nat>, adjacency: map<Id, seq<Id>>,
                          ghost edges: set<Dependency>)
      returns (acyclic: bool, ghost rank: map<Id, nat>, ghost cycle: seq<Id>)
    requires Describes(edges, incoming, adjacency)
    requires forall e :: e in edges ==> e.task in nodes && e.dependsOn in nodes
    ensures acyclic <==> Acyclic(edges)
    ensures acyclic ==> IsRank(edges, rank)
    ensures !acyclic ==> IsCycle(edges, cycle)
  {
    hide Relaxed, Ordered, IsRank, IsCycle;
    var queue, degrees := InitialDegrees(nodes, incoming, edges);
    var visited := 0;
    ghost var done: seq<Id> := [];
    assert done + queue == queue;
    assert Elements(done) == {};
    NothingOrdered(edges);
    while queue != []
      invariant Relaxed(nodes, edges, degrees, done + queue, Elements(done), Malformed(""), {})
      invariant Ordered(edges, done)
      invariant visited == |done| <= |nodes|
      decreases |nodes| - |done|
    {
      ghost var id := queue[0];
      HeadFollows(nodes, edges, degrees, done, queue);
      degrees, queue := RelaxDependents(nodes, adjacency, degrees, queue, edges, done);
      visited := visited + 1;
      done := done + [id];
      DequeuedFit(nodes, edges, degrees, done, queue);
    }
    assert done + queue == done;
    acyclic := visited == |nodes|;
    rank, cycle := Verdict(nodes, edges, degrees, done);
  }

  lemma {:induction false} NothingOrdered(edges: set<Dependency>)
    ensures Ordered(edges, [])
  {
  }

  /** The head of the queue has no unmet prerequisite, so dequeuing it keeps the order. */
  lemma {:induction false} HeadFollows(nodes: set<Id>, edges: set<Dependency>, degrees: map<Id, nat>, done: seq<Id>, queue: seq<Id>)
    requires Relaxed(nodes, edges, degrees, done + queue, Elements(done), Malformed(""), {})
    requires Ordered(edges, done) && queue != []
    ensures Ordered(edges, done + [queue[0]])
  {
    assert queue[0] in done + queue;
    OrderedGrows(edges, done, queue[0]);
  }

  lemma {:induction false} Verdict(nodes: set<Id>, edges: set<Dependency>, degrees: map<Id, nat>, done: seq<Id>)
      returns (rank: map<Id, nat>, cycle: seq<Id>)
    requires Relaxed(nodes, edges, degrees, done, Elements(done), Malformed(""), {})
    requires Ordered(edges, done)
    requires forall e :: e in edges ==> e.task in nodes && e.dependsOn in nodes
    ensures |done| == |nodes| ==> IsRank(edges, rank) && Acyclic(edges)
    ensures |done| != |nodes| ==> IsCycle(edges, cycle) && !Acyclic(edges)
  {
    rank, cycle := map[], [];
    DistinctCount(done);
    SubsetCount(Elements(done), nodes);
    if |done| == |nodes| {
      rank := OrderRanks(edges, done);
      RankExcludesCycles(edges, rank);
    } else {
      cycle := StuckHoldsCycle(nodes, edges, Elements(done));
    }
  }

  lemma {:induction false} DequeuedFit(nodes: set<Id>, edges: set<Dependency>, degrees: map<Id, nat>, done: seq<Id>, queue: seq<Id>)
    requires Relaxed(nodes, edges, degrees, done + queue, Elements(done), Malformed(""), {})
    ensures |done| <= |nodes|
  {
    forall i, j | 0 <= i < j < |done| ensures done[i] != done[j] {
      assert (done + queue)[i] != (done + queue)[j];
    }
    DistinctCount(done);
    forall x | x in done ensures x in nodes {
      assert x in done + queue;
    }
    SubsetCount(Elements(done), nodes);
  }

  lemma {:induction false} StartRelaxing(nodes: set<Id>, edges: set<Dependency>, degrees: map<Id, nat>, done: seq<Id>, queue: seq<Id>)
    requires Relaxed(nodes, edges, degrees, done + queue, Elements(done), Malformed(""), {}) && queue != []
    ensures queue[0] !in Elements(done)
    ensures Relaxed(nodes, edges, degrees, done + queue, Elements(done), queue[0], {})
  {
    forall i | 0 <= i < |done| ensures done[i] != queue[0] {
      assert (done + queue)[i] != (done + queue)[|done|];
    }
  }

  /** Seeds the degree table and the queue; Go iterates the set in any order. */
  method InitialDegrees(nodes: set<Id>, incoming: map<Id, nat>, ghost edges: set<Dependency>)
      returns (queue: seq<Id>, degrees: map<Id, nat>)
    requires forall x :: Degree(incoming, x) == |Unmet(edges, x, {})|
    ensures Relaxed(nodes, edges, degrees, queue, {}, Malformed(""), {})
  {
    queue, degrees := [], map[];
    var pending := nodes;
    while pending != {}
      invariant pending <= nodes
      invariant Relaxed(nodes - pending, edges, degrees, queue, {}, Malformed(""), {})
    {
      var id :| id in pending;
      ghost var settled := nodes - pending;
      pending := pending - {id};
      degrees := degrees[id := Degree(incoming, id)];
      assert nodes - pending == settled + {id};
      if Degree(incoming, id) == 0 {
        queue := queue + [id];
      }
    }
    assert nodes - pending == nodes;
  }

  /** Takes the first queued task and lowers the degree of each of its dependents. */
  method RelaxDependents(nodes: set<Id>, adjacency: map<Id, seq<Id>>, degrees: map<Id, nat>, queue: seq<Id>,
                         ghost edges: set<Dependency>, ghost done: seq<Id>)
      returns (degrees': map<Id, nat>, queue': seq<Id>)
    requires queue != []
    requires Relaxed(nodes, edges, degrees, done + queue, Elements(done), Malformed(""), {})
    requires forall e :: e in edges ==> e.task in nodes
    requires Distinct(Dependents(adjacency, queue[0]))
    requires forall x :: x in Dependents(adjacency, queue[0]) <==> Dependency(x, queue[0]) in edges
    ensures Relaxed(nodes, edges, degrees', (done + [queue[0]]) + queue', Elements(done + [queue[0]]), Malformed(""), {})
  {
    hide Relaxed;
    var id := queue[0];
    var dependents := Dependents(adjacency, id);
    ghost var prefix := done + [id];
    ghost var doneSet := Elements(done);
    degrees', queue' := degrees, queue[1..];
    assert prefix + queue' == done + queue;
    StartRelaxing(nodes, edges, degrees, done, queue);
    assert Elements(dependents[..0]) == {};
    for k := 0 to |dependents|
      invariant Relaxed(nodes, edges, degrees', prefix + queue', doneSet, id, Elements(dependents[..k]))
    {
      var x := dependents[k];
      assert x in dependents;
      RelaxOne(nodes, edges, degrees', prefix + queue', doneSet, id, Elements(dependents[..k]), x);
      assert Elements(dependents[..k + 1]) == Elements(dependents[..k]) + {x};
      assert (prefix + queue') + [x] == prefix + (queue' + [x]);
      degrees' := degrees'[x := degrees'[x] - 1];
      if degrees'[x] == 0 {
        queue' := queue' + [x];
      }
    }
    assert dependents[..|dependents|] == dependents;
    RelaxAll(nodes, edges, degrees', prefix + queue', doneSet, id, Elements(dependents));
    assert Elements(done + [id]) == doneSet + {id};
  }

  // ----- The planning contract's depth-first search -----

  datatype PlannedNode = PlannedNode(id: Id, dependencies: seq<Id>)

  ghost function EdgesOf(table: map<Id, seq<Id>>): set<Dependency> {
    set t, p | t in table && p in table[t] :: Dependency(t, p)
  }

  ghost function Universe(table: map<Id, seq<Id>>): set<Id> {
    table.Keys + set e | e in EdgesOf(table) :: e.dependsOn
  }

  /** `visited` holds finished tasks, each after everything it depends on, and none
      of them is still being visited. */
  ghost predicate Finished(edges: set<Dependency>, visiting: set<Id>, visited: set<Id>, order: seq<Id>) {
    && visited == Elements(order) && Distinct(order) && Ordered(edges, order)
    && visited !! visiting
  }

  lemma {:induction false} FinishOne(edges: set<Dependency>, visiting: set<Id>, visited: set<Id>, order: seq<Id>, id: Id)
    requires Finished(edges, visiting + {id}, visited, order) && id !in visiting
    requires forall e {:trigger e in edges} :: e in edges && e.task == id ==> e.dependsOn in visited
    ensures Finished(edges, visiting, visited + {id}, order + [id])
  {
    assert Unmet(edges, id, visited) == {};
    OrderedGrows(edges, order, id);
    assert Elements(order + [id]) == Elements(order) + {id};
  }

  /** The stack of open visits is a walk, so meeting one of them again closes a cycle. */
  lemma {:induction false} RevisitCycle(edges: set<Dependency>, stack: seq<Id>, id: Id) returns (c: seq<Id>)
    requires IsWalk(edges, stack + [id]) && id in stack
    ensures IsCycle(edges, c)
  {
    var w := stack + [id];
    var i :| 0 <= i < |stack| && stack[i] == id;
    WalkSuffix(edges, w, i);
    c := w[i..];
  }

  method Visit(id: Id, table: map<Id, seq<Id>>, visiting0: set<Id>, visited0: set<Id>,
               ghost stack: seq<Id>, ghost order0: seq<Id>)
      returns (cyclic: bool, visiting: set<Id>, visited: set<Id>, ghost order: seq<Id>, ghost cycle: seq<Id>)
    requires id in Universe(table) && visiting0 <= Universe(table)
    requires visiting0 == Elements(stack) && IsWalk(EdgesOf(table), stack + [id])
    requires Finished(EdgesOf(table), visiting0, visited0, order0)
    ensures cyclic ==> IsCycle(EdgesOf(table), cycle)
    ensures !cyclic ==> visiting == visiting0 && visited0 <= visited && id in visited
    ensures !cyclic ==> Finished(EdgesOf(table), visiting0, visited, order)
    decreases |Universe(table) - visiting0|
  {
    hide *;
    ghost var edges := EdgesOf(table);
    cyclic, visiting, visited, order, cycle := false, visiting0, visited0, order0, [];
    StackMember(stack, id);
    if id in visiting {
      cycle := RevisitCycle(edges, stack, id);
      return true, visiting, visited, order, cycle;
    }
    if id in visited {
      return;
    }
    visiting := visiting + {id};
    OpenVisit(edges, visiting0, visited, order, id);
    ElementsSnoc(stack, id);
    SmallerRest(Universe(table), visiting0, id);
    var dependencies := if id in table then table[id] else [];
    EdgesFrom(table, id);
    for k := 0 to |dependencies|
      invariant !cyclic && visiting == visiting0 + {id} && visited0 <= visited
      invariant forall i :: 0 <= i < k ==> dependencies[i] in visited
      invariant Finished(edges, visiting0 + {id}, visited, order)
    {
      ExtendWalk(edges, stack + [id], dependencies[k]);
      cyclic, visiting, visited, order, cycle :=
        Visit(dependencies[k], table, visiting, visited, stack + [id], order);
      if cyclic {
        return;
      }
    }
    FinishOne(edges, visiting0, visited, order, id);
    visiting := visiting - {id};
    visited := visited + {id};
    order := order + [id];
  }

  lemma {:induction false} StackMember(stack: seq<Id>, id: Id)
    ensures id in Elements(stack) <==> id in stack
  {
  }

  lemma {:induction false} EdgesFrom(table: map<Id, seq<Id>>, id: Id)
    ensures id in table ==> forall k :: 0 <= k < |table[id]| ==>
              Dependency(id, table[id][k]) in EdgesOf(table) && table[id][k] in Universe(table)
    ensures forall e :: e in EdgesOf(table) && e.task == id ==> id in table && e.dependsOn in table[id]
  {
    if id in table {
      forall k | 0 <= k < |table[id]|
        ensures Dependency(id, table[id][k]) in EdgesOf(table) && table[id][k] in Universe(table)
      {
        assert table[id][k] in table[id];
        assert Dependency(id, table[id][k]) in EdgesOf(table);
      }
    }
  }

  lemma {:induction false} OpenVisit(edges: set<Dependency>, visiting: set<Id>, visited: set<Id>, order: seq<Id>, id: Id)
    requires Finished(edges, visiting, visited, order) && id !in visited
    ensures Finished(edges, visiting + {id}, visited, order)
  {
  }

  lemma {:induction false} SmallerRest(universe: set<Id>, visiting: set<Id>, id: Id)
    requires id in universe && id !in visiting
    ensures |universe - (visiting + {id})| < |universe - visiting|
  {
    assert universe - visiting == (universe - (visiting + {id})) + {id};
  }

  /** The recursive search reports a cycle exactly when there is one. */
  method GraphHasCycle(tasks: seq<PlannedNode>) returns (cyclic: bool)
    ensures cyclic <==> !Acyclic(EdgesOf(DependencyTable(tasks)))
  {
    var dependencies := map[];
    for k := 0 to |tasks|
      invariant dependencies == DependencyTable(tasks[..k])
    {
      assert tasks[..k + 1][..k] == tasks[..k];
      dependencies := dependencies[tasks[k].id := tasks[k].dependencies];
    }
    assert tasks[..|tasks|] == tasks;
    ghost var edges := EdgesOf(dependencies);
    var visiting: set<Id>, visited: set<Id> := {}, {};
    ghost var order: seq<Id>, cycle: seq<Id> := [], [];
    var pending := dependencies.Keys;
    while pending != {}
      invariant pending <= dependencies.Keys && dependencies.Keys - pending <= visited
      invariant visiting == {} && Finished(edges, {}, visited, order)
    {
      var id :| id in pending;
      pending := pending - {id};
      cyclic, visiting, visited, order, cycle := Visit(id, dependencies, visiting, visited, [], order);
      if cyclic {
        return;
      }
    }
    forall e | e in edges ensures e.task in order {
      assert e.task in visited;
    }
    ghost var rank := OrderRanks(edges, order);
    RankExcludesCycles(edges, rank);
    cyclic := false;
  }

  /** Later entries win, as in the Go map the search fills. */
  function DependencyTable(tasks: seq<PlannedNode>): map<Id, seq<Id>> {
    if tasks == [] then map[]
    else
      var last := tasks[|tasks| - 1];
      DependencyTable(tasks[..|tasks| - 1])[last.id := last.dependencies]
  }

  /** The planned edges as the kernel receives them, one row per dependency. */
  function Flatten(tasks: seq<PlannedNode>): seq<Dependency> {
    if tasks == [] then []
    else
      var last := tasks[|tasks| - 1];
      Flatten(tasks[..|tasks| - 1]) + Rows(last.id, last.dependencies)
  }

  function Rows(task: Id, dependencies: seq<Id>): seq<Dependency> {
    seq(|dependencies|, i requires 0 <= i < |dependencies| => Dependency(task, dependencies[i]))
  }

  lemma {:induction false} RowsElements(task: Id, dependencies: seq<Id>, e: Dependency)
    ensures e in Rows(task, dependencies) <==> e.task == task && e.dependsOn in dependencies
  {
    if e.task == task && e.dependsOn in dependencies {
      var i :| 0 <= i < |dependencies| && dependencies[i] == e.dependsOn;
      assert Rows(task, dependencies)[i] == e;
    }
  }

  lemma {:induction false} TableKeys(tasks: seq<PlannedNode>, x: Id)
    ensures x in DependencyTable(tasks) <==> exists i :: 0 <= i < |tasks| && tasks[i].id == x
  {
    if tasks != [] {
      var n := |tasks| - 1;
      TableKeys(tasks[..n], x);
      if x in DependencyTable(tasks[..n]) {
        var i :| 0 <= i < n && tasks[..n][i].id == x;
        assert tasks[i].id == x;
      } else if x == tasks[n].id {
        assert tasks[n].id == x;
      }
    }
  }

  lemma {:induction false} FlattenIsTable(tasks: seq<PlannedNode>)
    requires forall i, j :: 0 <= i < j < |tasks| ==> tasks[i].id != tasks[j].id
    ensures Elements(Flatten(tasks)) == EdgesOf(DependencyTable(tasks))
  {
    if tasks != [] {
      var n := |tasks| - 1;
      var rest, last := tasks[..n], tasks[n];
      FlattenIsTable(rest);
      TableKeys(rest, last.id);
      assert last.id !in DependencyTable(rest);
      forall e ensures e in Elements(Flatten(tasks)) <==> e in EdgesOf(DependencyTable(tasks)) {
        RowsElements(last.id, last.dependencies, e);
        assert e in Flatten(rest) <==> e in Elements(Flatten(rest));
      }
    }
  }

  /** On every graph both layers admit, the kernel's loop and the planner's search
      give the same answer. */
  method PlannersAgree(tasks: seq<PlannedNode>) returns (admitted: bool, acyclic: bool, cyclic: bool)
    requires forall i, j :: 0 <= i < j < |tasks| ==> tasks[i].id != tasks[j].id
    ensures admitted <==> ValidDependencies(set i | 0 <= i < |tasks| :: tasks[i].id, Flatten(tasks))
    ensures admitted ==> acyclic == !cyclic == Acyclic(Elements(Flatten(tasks)))
  {
    var nodes := set i | 0 <= i < |tasks| :: tasks[i].id;
    var incoming, adjacency;
    admitted, incoming, adjacency := PlannedTaskGraph(nodes, Flatten(tasks));
    ghost var rank, cycle;
    cyclic := GraphHasCycle(tasks);
    acyclic := false;
    if admitted {
      acyclic, rank, cycle := TaskGraphAcyclic(nodes, incoming, adjacency, Elements(Flatten(tasks)));
      FlattenIsTable(tasks);
    }
  }
}
