/** The dependency graph: Kahn validation, and what the transitioner asks of the graph. */
module Dag {
  import opened Model

  // ---- comprehensions over the declared nodes ----

  /** `[n for n in xs if keep(n)]` */
  function Filter(xs: seq<StepName>, keep: StepName -> bool): (r: seq<StepName>)
    ensures forall n {:trigger n in r} :: n in r <==> n in xs && keep(n)
    ensures |r| <= |xs|
  {
    if xs == [] then []
    else if keep(xs[0]) then [xs[0]] + Filter(xs[1..], keep)
    else Filter(xs[1..], keep)
  }

  ghost predicate Distinct(xs: seq<StepName>) {
    forall i, j :: 0 <= i < j < |xs| ==> xs[i] != xs[j]
  }

  lemma DistinctCons(x: StepName, xs: seq<StepName>)
    ensures Distinct([x] + xs) <==> x !in xs && Distinct(xs)
  {
    var all := [x] + xs;
    if Distinct(all) {
      forall i, j | 0 <= i < j < |xs| ensures xs[i] != xs[j] {
        assert all[i+1] != all[j+1];
      }
      forall i | 0 <= i < |xs| ensures xs[i] != x {
        assert all[0] != all[i+1];
      }
    }
  }

  lemma {:induction false} FilterDistinct(xs: seq<StepName>, keep: StepName -> bool)
    requires Distinct(xs)
    ensures Distinct(Filter(xs, keep))
  {
    if xs != [] {
      assert xs == [xs[0]] + xs[1..];
      DistinctCons(xs[0], xs[1..]);
      FilterDistinct(xs[1..], keep);
      DistinctCons(xs[0], Filter(xs[1..], keep));
    }
  }

  function PredsOf(g: Graph, n: StepName): set<StepName> {
    if n in g.preds then g.preds[n] else {}
  }

  function EntryNodes(g: Graph): seq<StepName> {
    Filter(g.nodes, n => PredsOf(g, n) == {})
  }

  function SuccessorsOf(g: Graph, n: StepName): seq<StepName> {
    Filter(g.nodes, candidate => n in PredsOf(g, candidate))
  }

  function TerminalNodes(g: Graph): seq<StepName> {
    Filter(g.nodes, n => SuccessorsOf(g, n) == [])
  }

  function ReadySuccessors(g: Graph, done: set<StepName>): seq<StepName> {
    Filter(g.nodes, n => n !in done && PredsOf(g, n) <= done)
  }

  // ---- what a valid graph is, without an algorithm ----

  ghost function NodeSet(g: Graph): set<StepName> { set n | n in g.nodes }

  ghost predicate Closed(g: Graph) {
    forall n :: n in g.preds ==> g.preds[n] <= NodeSet(g)
  }

  /** A walk follows edges from predecessor to dependant. */
  ghost predicate IsWalk(g: Graph, w: seq<StepName>) {
    forall i :: 0 <= i < |w| - 1 ==> EdgeAt(g, w, i)
  }

  ghost predicate EdgeAt(g: Graph, w: seq<StepName>, i: nat)
    requires i < |w| - 1
  {
    w[i] in PredsOf(g, w[i+1])
  }

  ghost predicate IsCycle(g: Graph, w: seq<StepName>) {
    |w| >= 2 && IsWalk(g, w) && w[0] == w[|w|-1]
  }

  ghost predicate Acyclic(g: Graph) {
    forall w :: !IsCycle(g, w)
  }

  ghost predicate Valid(g: Graph) {
    IsDict(g) && Closed(g) && Acyclic(g)
  }

  ghost predicate Reaches(g: Graph, a: StepName, b: StepName) {
    exists w :: |w| >= 1 && IsWalk(g, w) && w[0] == a && w[|w|-1] == b
  }

  ghost predicate Ancestor(g: Graph, a: StepName, b: StepName) {
    exists w :: |w| >= 2 && IsWalk(g, w) && w[0] == a && w[|w|-1] == b
  }

  /** No node twice, and every node after all its predecessors. */
  ghost predicate IsTopological(g: Graph, order: seq<StepName>) {
    && Distinct(order)
    && (forall i :: 0 <= i < |order| ==> InOrder(g, order, i))
  }

  ghost predicate InOrder(g: Graph, order: seq<StepName>, i: nat)
    requires i < |order|
  {
    order[i] in g.nodes && PredsOf(g, order[i]) <= Elements(order[..i])
  }

  lemma {:induction false} FilterNone(xs: seq<StepName>, keep: StepName -> bool)
    requires forall n :: n in xs ==> !keep(n)
    ensures Filter(xs, keep) == []
  {
    if xs != [] {
      FilterNone(xs[1..], keep);
    }
  }

  ghost function Elements(xs: seq<StepName>): set<StepName> { set n | n in xs }

  lemma ElementsAppend(xs: seq<StepName>, n: StepName)
    ensures Elements(xs + [n]) == Elements(xs) + {n}
  {}

  lemma {:induction false} DistinctCardinality(xs: seq<StepName>)
    requires Distinct(xs)
    ensures |Elements(xs)| == |xs|
  {
    if xs == [] {
      assert Elements(xs) == {};
    } else {
      var init := xs[..|xs|-1];
      DistinctCardinality(init);
      assert xs == init + [xs[|xs|-1]];
      ElementsAppend(init, xs[|xs|-1]);
    }
  }

  lemma SubsetCardinality(a: set<StepName>, b: set<StepName>)
    requires a <= b
    ensures |a| <= |b|
    ensures |a| == |b| ==> a == b
  {
    assert b == a + (b - a);
  }

  /** A repeat in a walk closes a cycle. */
  lemma RepeatIsCycle(g: Graph, w: seq<StepName>, i: nat, j: nat)
    requires IsWalk(g, w) && i < j < |w| && w[i] == w[j]
    ensures IsCycle(g, w[i..j+1])
  {
    var c := w[i..j+1];
    forall k | 0 <= k < |c| - 1 ensures EdgeAt(g, c, k) {
      assert EdgeAt(g, w, i + k);
    }
  }

  lemma WalkPrepend(g: Graph, y: StepName, w: seq<StepName>)
    requires IsWalk(g, w) && w != [] && y in PredsOf(g, w[0])
    ensures IsWalk(g, [y] + w)
  {
    var v := [y] + w;
    forall i | 0 <= i < |v| - 1 ensures EdgeAt(g, v, i) {
      assert i > 0 ==> EdgeAt(g, w, i - 1);
    }
  }

  /** Walking backwards inside a set where every member has a predecessor: as long as we like. */
  lemma {:induction false} LongWalkBack(g: Graph, r: set<StepName>, n: nat) returns (w: seq<StepName>)
    requires r != {} && forall x :: x in r ==> PredsOf(g, x) * r != {}
    ensures |w| == n + 1 && IsWalk(g, w) && Elements(w) <= r
  {
    if n == 0 {
      var x :| x in r;
      w := [x];
    } else {
      var v := LongWalkBack(g, r, n - 1);
      assert v[0] in r;
      var y :| y in PredsOf(g, v[0]) * r;
      w := [y] + v;
      WalkPrepend(g, y, v);
    }
  }

  lemma WalkAppend(g: Graph, w: seq<StepName>, y: StepName)
    requires IsWalk(g, w) && w != [] && w[|w|-1] in PredsOf(g, y)
    ensures IsWalk(g, w + [y])
  {
    var v := w + [y];
    forall i | 0 <= i < |v| - 1 ensures EdgeAt(g, v, i) {
      assert i < |w| - 1 ==> EdgeAt(g, w, i);
    }
  }

  /** `x` has a dependant inside `r`. */
  ghost predicate LeadsInto(g: Graph, x: StepName, r: set<StepName>) {
    exists y :: y in r && x in PredsOf(g, y)
  }

  /** Walking forwards inside a set where every member has a dependant. */
  lemma {:induction false} LongWalkAhead(g: Graph, r: set<StepName>, n: nat) returns (w: seq<StepName>)
    requires r != {} && forall x {:trigger LeadsInto(g, x, r)} :: x in r ==> LeadsInto(g, x, r)
    ensures |w| == n + 1 && IsWalk(g, w) && Elements(w) <= r
  {
    if n == 0 {
      var x :| x in r;
      w := [x];
    } else {
      var v := LongWalkAhead(g, r, n - 1);
      var last := v[n-1];
      assert last in Elements(v);
      assert LeadsInto(g, last, r);
      var y :| y in r && last in PredsOf(g, y);
      w := v + [y];
      WalkAppend(g, v, y);
      ElementsAppend(v, y);
    }
  }

  /** A walk longer than the set it stays in has a repeat, hence a cycle. */
  lemma PigeonholeCycle(g: Graph, r: set<StepName>, w: seq<StepName>)
    requires IsWalk(g, w) && Elements(w) <= r && |w| > |r|
    ensures !Acyclic(g)
  {
    if forall i, j :: 0 <= i < j < |w| ==> w[i] != w[j] {
      DistinctCardinality(w);
      SubsetCardinality(Elements(w), r);
      assert false;
    }
    var i, j :| 0 <= i < j < |w| && w[i] == w[j];
    RepeatIsCycle(g, w, i, j);
  }

  /** In an acyclic graph every non-empty set of nodes has a member with no predecessor in the set. */
  lemma MinimalNode(g: Graph, r: set<StepName>) returns (m: StepName)
    requires Acyclic(g) && r != {}
    ensures m in r && PredsOf(g, m) * r == {}
  {
    if forall x :: x in r ==> PredsOf(g, x) * r != {} {
      var w := LongWalkBack(g, r, |r|);
      PigeonholeCycle(g, r, w);
      assert false;
    }
    m :| m in r && PredsOf(g, m) * r == {};
  }

  lemma ReachesExtend(g: Graph, a: StepName, b: StepName, sink: StepName)
    requires a in PredsOf(g, b) && Reaches(g, b, sink)
    ensures Reaches(g, a, sink)
  {
    var w :| |w| >= 1 && IsWalk(g, w) && w[0] == b && w[|w|-1] == sink;
    var v := [a] + w;
    WalkPrepend(g, a, w);
    assert IsWalk(g, v) && v[0] == a && v[|v|-1] == sink;
  }

  lemma ReachesItself(g: Graph, n: StepName)
    ensures Reaches(g, n, n)
  {
    var w := [n];
    assert IsWalk(g, w) && w[0] == n && w[|w|-1] == n;
  }

  lemma NotTheSink(g: Graph, sink: StepName, n: StepName) returns (y: StepName)
    requires TerminalNodes(g) == [sink] && n in g.nodes && n != sink
    ensures y in g.nodes && n in PredsOf(g, y)
  {
    assert n !in TerminalNodes(g);
    y := SuccessorsOf(g, n)[0];
    assert y in SuccessorsOf(g, n);
  }

  /** In a finite acyclic graph with one sink, every node reaches the sink. */
  lemma EveryNodeReachesTheSink(g: Graph, sink: StepName, n: StepName)
    requires Valid(g) && TerminalNodes(g) == [sink] && n in g.nodes
    ensures Reaches(g, n, sink)
  {
    var lost := set x | x in g.nodes && !Reaches(g, x, sink);
    forall x {:trigger LeadsInto(g, x, lost)} | x in lost ensures LeadsInto(g, x, lost) {
      LostLeadsOn(g, sink, x, lost);
    }
    EndlessWalkIsCyclic(g, lost);
    assert n !in lost;
  }

  lemma EndlessWalkIsCyclic(g: Graph, r: set<StepName>)
    requires forall x {:trigger LeadsInto(g, x, r)} :: x in r ==> LeadsInto(g, x, r)
    ensures r == {} || !Acyclic(g)
  {
    if r != {} {
      var w := LongWalkAhead(g, r, |r|);
      PigeonholeCycle(g, r, w);
    }
  }

  lemma LostLeadsOn(g: Graph, sink: StepName, x: StepName, lost: set<StepName>)
    requires TerminalNodes(g) == [sink] && x in lost
    requires forall n :: n in lost <==> n in g.nodes && !Reaches(g, n, sink)
    ensures LeadsInto(g, x, lost)
  {
    ReachesItself(g, sink);
    var y := NotTheSink(g, sink, x);
    if Reaches(g, y, sink) {
      ReachesExtend(g, x, y, sink);
    }
  }

  lemma FullOrder(g: Graph, order: seq<StepName>)
    requires IsDict(g) && IsTopological(g, order)
    ensures |order| <= |g.nodes| && Elements(order) <= NodeSet(g)
    ensures |order| == |g.nodes| <==> Elements(order) == NodeSet(g)
    ensures |order| == |g.nodes| ==> forall n :: n in g.nodes ==> n in order
  {
    DistinctCardinality(order);
    DistinctCardinality(g.nodes);
    assert Elements(g.nodes) == NodeSet(g);
    forall n | n in Elements(order) ensures n in NodeSet(g) {
      var i :| 0 <= i < |order| && order[i] == n;
      assert InOrder(g, order, i);
    }
    SubsetCardinality(Elements(order), NodeSet(g));
    if |order| == |g.nodes| {
      forall n | n in g.nodes ensures n in order {
        assert n in NodeSet(g);
      }
    }
  }

  /** A topological order that holds every node leaves no room for a cycle. */
  lemma TopologicalIsAcyclic(g: Graph, order: seq<StepName>)
    requires IsDict(g) && Closed(g) && IsTopological(g, order) && |order| == |g.nodes|
    ensures Acyclic(g)
  {
    FullOrder(g, order);
    forall w ensures !IsCycle(g, w) {
      if |w| >= 2 && IsWalk(g, w) {
        WalkNeverReturns(g, order, w);
      }
    }
  }

  lemma WalkNeverReturns(g: Graph, order: seq<StepName>, w: seq<StepName>)
    requires IsDict(g) && Closed(g) && IsTopological(g, order) && forall n :: n in g.nodes ==> n in order
    requires |w| >= 2 && IsWalk(g, w)
    ensures w[0] != w[|w|-1]
  {
    assert EdgeAt(g, w, 0);
    assert w[0] in NodeSet(g);
    var i :| 0 <= i < |order| && order[i] == w[0];
    WalkClimbs(g, order, w, i, |w| - 1);
    var j :| i + |w| - 1 <= j < |order| && order[j] == w[|w|-1];
    assert order[i] != order[j];
  }

  lemma {:induction false} WalkClimbs(g: Graph, order: seq<StepName>, w: seq<StepName>, start: nat, k: nat)
    requires IsTopological(g, order) && IsWalk(g, w) && k < |w|
    requires IsDict(g) && forall n :: n in g.nodes ==> n in order
    requires start < |order| && order[start] == w[0]
    ensures exists i :: start + k <= i < |order| && order[i] == w[k]
  {
    if k == 0 {
      assert order[start] == w[0];
    } else {
      WalkClimbs(g, order, w, start, k - 1);
      var i :| start + k - 1 <= i < |order| && order[i] == w[k-1];
      assert EdgeAt(g, w, k - 1);
      var j :| 0 <= j < |order| && order[j] == w[k];
      assert InOrder(g, order, j);
      assert w[k-1] in Elements(order[..j]);
    }
  }

  /** If some nodes were never ordered and each of them still waits for another of them, there is a cycle. */
  lemma LeftoverIsCyclic(g: Graph, ordered: set<StepName>)
    requires Closed(g) && IsDict(g) && ordered < NodeSet(g)
    requires forall n :: n in NodeSet(g) - ordered ==> PredsOf(g, n) - ordered != {}
    ensures !Acyclic(g)
  {
    var left := NodeSet(g) - ordered;
    var x :| x in NodeSet(g) && x !in ordered;
    assert x in left;
    forall n | n in left ensures PredsOf(g, n) * left != {} {
      var p :| p in PredsOf(g, n) - ordered;
      assert p in PredsOf(g, n) * left;
    }
    var w := LongWalkBack(g, left, |left|);
    PigeonholeCycle(g, left, w);
  }

  // ---- DependencyGraph._validate ----

  datatype Validation = Accepted | UnknownPredecessor | HasCycle

  /** The predecessors of `n` that Kahn's loop has not taken off the queue yet. */
  ghost function Waiting(g: Graph, n: StepName, taken: set<StepName>): set<StepName> {
    PredsOf(g, n) - taken
  }

  /** A node's counter is the number of its predecessors still to come off the queue. */
  ghost predicate Counts(g: Graph, indegree: map<StepName, int>, taken: seq<StepName>) {
    && indegree.Keys == g.preds.Keys
    && (forall n :: n in indegree ==> indegree[n] == |Waiting(g, n, Elements(taken))|)
  }

  /** The queue holds, once each, the nodes whose counter is zero and that were not taken yet. */
  ghost predicate QueueHolds(indegree: map<StepName, int>, ready: seq<StepName>, taken: seq<StepName>) {
    && Distinct(ready)
    && (forall n :: n in ready <==> n in indegree && indegree[n] == 0 && n !in taken)
  }

  /** What Kahn's outer loop keeps: `taken` is what came off the queue, in order. */
  ghost predicate KahnInv(g: Graph, indegree: map<StepName, int>, ready: seq<StepName>, taken: seq<StepName>) {
    && Counts(g, indegree, taken)
    && QueueHolds(indegree, ready, taken)
    && IsTopological(g, taken)
  }

  method Validate(g: Graph) returns (verdict: Validation)
    requires IsDict(g)
    ensures verdict == Accepted <==> Closed(g) && Acyclic(g)
    ensures verdict == UnknownPredecessor <==> !Closed(g)
  {
    var dangling := HasDangling(g);
    if dangling {
      return UnknownPredecessor;
    }
    var indegree := map n | n in g.preds :: |g.preds[n]|;
    var ready := Filter(g.nodes, n => n in indegree && indegree[n] == 0);
    KahnStart(g, indegree, ready);
    var ordered := 0;
    ghost var taken: seq<StepName> := [];
    while ready != []
      invariant KahnInv(g, indegree, ready, taken)
      invariant ordered == |taken|
      decreases |g.nodes| - |taken|
    {
      var node := ready[0];
      assert node in ready;
      TopologicalFits(g, taken, node);
      ghost var before, queued := indegree, ready;
      ready := ready[1..];
      ordered := ordered + 1;
      ghost var newly;
      indegree, ready, newly := DecrementSuccessors(g, node, indegree, ready);
      KahnStep(g, before, queued, taken, indegree, newly);
      taken := taken + [node];
    }
    KahnEnd(g, indegree, taken);
    if ordered != |g.nodes| {
      return HasCycle;
    }
    return Accepted;
  }

  /** The first loop of `_validate`: does some node depend on an unknown one? */
  method HasDangling(g: Graph) returns (found: bool)
    requires IsDict(g)
    ensures found <==> !Closed(g)
  {
    for i := 0 to |g.nodes|
      invariant forall j :: 0 <= j < i ==> PredsOf(g, g.nodes[j]) <= NodeSet(g)
    {
      var known := set n | n in g.nodes;
      var dangling := PredsOf(g, g.nodes[i]) - known;
      if dangling != {} {
        ghost var d :| d in dangling;
        assert d in g.preds[g.nodes[i]] && d !in NodeSet(g);
        return true;
      }
      forall d | d in PredsOf(g, g.nodes[i]) ensures d in NodeSet(g) {
        assert d !in dangling;
      }
    }
    assert Closed(g);
    return false;
  }

  /** The inner loop of `_validate`: `newly` is what it appends to the queue. */
  method DecrementSuccessors(g: Graph, node: StepName, before: map<StepName, int>, queue: seq<StepName>)
    returns (indegree: map<StepName, int>, ready: seq<StepName>, ghost newly: seq<StepName>)
    requires IsDict(g) && before.Keys == g.preds.Keys
    ensures indegree.Keys == before.Keys
    ensures forall n :: n in before ==> indegree[n] == before[n] - (if node in PredsOf(g, n) then 1 else 0)
    ensures ready == queue + newly && Distinct(newly)
    ensures forall n :: n in newly <==> n in before && node in PredsOf(g, n) && indegree[n] == 0
  {
    indegree, ready, newly := before, queue, [];
    var successors := SuccessorsOf(g, node);
    FilterDistinct(g.nodes, candidate => node in PredsOf(g, candidate));
    for k := 0 to |successors|
      invariant indegree.Keys == before.Keys
      invariant forall n :: n in before ==> indegree[n] == before[n] - (if n in successors[..k] then 1 else 0)
      invariant ready == queue + newly && Distinct(newly)
      invariant forall n :: n in newly <==> n in successors[..k] && n in indegree && indegree[n] == 0
    {
      var successor := successors[k];
      TakeOne(successors, k);
      indegree := indegree[successor := indegree[successor] - 1];
      if indegree[successor] == 0 {
        ready := ready + [successor];
        DistinctAppend(newly, successor);
        newly := newly + [successor];
      }
    }
    assert successors[..|successors|] == successors;
  }

  lemma TakeOne(xs: seq<StepName>, k: nat)
    requires Distinct(xs) && k < |xs|
    ensures xs[..k+1] == xs[..k] + [xs[k]] && xs[k] in xs && xs[k] !in xs[..k]
  {}

  lemma DistinctAppend(xs: seq<StepName>, x: StepName)
    requires Distinct(xs) && x !in xs
    ensures Distinct(xs + [x])
  {}

  lemma TopologicalFits(g: Graph, taken: seq<StepName>, next: StepName)
    requires IsDict(g) && IsTopological(g, taken) && next in g.nodes && next !in taken
    ensures |taken| < |g.nodes|
  {
    FullOrder(g, taken);
  }

  lemma KahnStart(g: Graph, indegree: map<StepName, int>, ready: seq<StepName>)
    requires IsDict(g) && indegree == map n | n in g.preds :: |g.preds[n]|
    requires ready == Filter(g.nodes, n => n in indegree && indegree[n] == 0)
    ensures KahnInv(g, indegree, ready, [])
  {
    FilterDistinct(g.nodes, n => n in indegree && indegree[n] == 0);
    assert Elements([]) == {};
    forall n | n in indegree ensures indegree[n] == |Waiting(g, n, {})| {
      assert PredsOf(g, n) - {} == g.preds[n];
    }
  }

  /** One round of Kahn's outer loop keeps its invariant. */
  lemma KahnStep(g: Graph, before: map<StepName, int>, queued: seq<StepName>, taken: seq<StepName>,
                 after: map<StepName, int>, newly: seq<StepName>)
    requires IsDict(g) && queued != [] && KahnInv(g, before, queued, taken)
    requires after.Keys == before.Keys
    requires forall n :: n in before ==> after[n] == before[n] - (if queued[0] in PredsOf(g, n) then 1 else 0)
    requires forall n :: n in newly <==> n in before && queued[0] in PredsOf(g, n) && after[n] == 0
    requires Distinct(newly)
    ensures KahnInv(g, after, queued[1..] + newly, taken + [queued[0]])
  {
    var node := queued[0];
    assert node in queued;
    KahnCounts(g, before, taken, after, node);
    KahnTopological(g, before, taken, node);
    KahnQueue(g, before, queued, taken, after, newly);
  }

  lemma KahnCounts(g: Graph, before: map<StepName, int>, taken: seq<StepName>, after: map<StepName, int>,
                   node: StepName)
    requires Counts(g, before, taken) && node !in taken && after.Keys == before.Keys
    requires forall n :: n in before ==> after[n] == before[n] - (if node in PredsOf(g, n) then 1 else 0)
    ensures Counts(g, after, taken + [node])
  {
    ElementsAppend(taken, node);
    forall n | n in after ensures after[n] == |Waiting(g, n, Elements(taken + [node]))| {
      assert Waiting(g, n, Elements(taken + [node])) == Waiting(g, n, Elements(taken)) - {node};
      assert node !in Elements(taken);
    }
  }

  lemma KahnTopological(g: Graph, before: map<StepName, int>, taken: seq<StepName>, node: StepName)
    requires IsDict(g) && Counts(g, before, taken) && IsTopological(g, taken)
    requires node in before && before[node] == 0 && node !in taken
    ensures IsTopological(g, taken + [node])
  {
    assert Waiting(g, node, Elements(taken)) == {};
    forall p | p in PredsOf(g, node) ensures p in Elements(taken) {
      assert p !in Waiting(g, node, Elements(taken));
    }
    DistinctAppend(taken, node);
    TopologicalAppend(g, taken, node);
  }

  lemma TopologicalAppend(g: Graph, taken: seq<StepName>, node: StepName)
    requires IsTopological(g, taken) && Distinct(taken + [node])
    requires node in g.nodes && PredsOf(g, node) <= Elements(taken)
    ensures IsTopological(g, taken + [node])
  {
    var order := taken + [node];
    forall i | 0 <= i < |order| ensures InOrder(g, order, i) {
      if i < |taken| {
        assert order[..i] == taken[..i];
        assert InOrder(g, taken, i);
      } else {
        assert order[..i] == taken;
      }
    }
  }

  /** A taken node's counter is already zero, so it never comes back to the queue. */
  lemma KahnQueue(g: Graph, before: map<StepName, int>, queued: seq<StepName>, taken: seq<StepName>,
                  after: map<StepName, int>, newly: seq<StepName>)
    requires queued != [] && KahnInv(g, before, queued, taken)
    requires after.Keys == before.Keys
    requires forall n :: n in before ==> after[n] == before[n] - (if queued[0] in PredsOf(g, n) then 1 else 0)
    requires forall n :: n in newly <==> n in before && queued[0] in PredsOf(g, n) && after[n] == 0
    requires Distinct(newly)
    ensures QueueHolds(after, queued[1..] + newly, taken + [queued[0]])
  {
    var node, rest := queued[0], queued[1..];
    assert queued == [node] + rest;
    DistinctCons(node, rest);
    assert node in queued;
    forall n | n in before && node in PredsOf(g, n) ensures n !in taken && before[n] > 0 {
      StillWaits(g, before, taken, node, n);
    }
    QueueRefill(before, node, rest, taken, after, newly);
    DistinctConcat(rest, newly);
  }

  lemma StillWaits(g: Graph, before: map<StepName, int>, taken: seq<StepName>, node: StepName, n: StepName)
    requires Counts(g, before, taken) && IsTopological(g, taken)
    requires n in before && node in PredsOf(g, n) && node !in taken
    ensures n !in taken && before[n] > 0
  {
    assert node in Waiting(g, n, Elements(taken));
    if n in taken {
      TakenIsComplete(g, taken, n);
    }
  }

  lemma QueueRefill(before: map<StepName, int>, node: StepName, rest: seq<StepName>, taken: seq<StepName>,
                    after: map<StepName, int>, newly: seq<StepName>)
    requires QueueHolds(before, [node] + rest, taken) && node !in rest
    requires after.Keys == before.Keys
    requires forall n :: n in newly ==> n in before && before[n] > 0 && after[n] == 0 && n !in taken
    requires forall n :: n in before && n !in newly ==> after[n] == before[n] || (before[n] > 0 && after[n] != 0)
    ensures forall n :: n in newly ==> n !in rest
    ensures forall n :: n in rest + newly <==> n in after && after[n] == 0 && n !in taken + [node]
  {
    var queued := [node] + rest;
    assert node in queued;
    forall n ensures n in queued <==> n == node || n in rest {}
  }

  lemma TakenIsComplete(g: Graph, taken: seq<StepName>, n: StepName)
    requires IsTopological(g, taken) && n in taken
    ensures Waiting(g, n, Elements(taken)) == {}
  {
    var i :| 0 <= i < |taken| && taken[i] == n;
    assert InOrder(g, taken, i);
    assert Elements(taken[..i]) <= Elements(taken);
  }

  lemma DistinctConcat(xs: seq<StepName>, ys: seq<StepName>)
    requires Distinct(xs) && Distinct(ys) && forall y :: y in ys ==> y !in xs
    ensures Distinct(xs + ys)
  {
    var all := xs + ys;
    forall i, j | 0 <= i < j < |all| ensures all[i] != all[j] {
      if i < |xs| && j >= |xs| {
        assert ys[j - |xs|] in ys;
      }
    }
  }

  lemma KahnEnd(g: Graph, indegree: map<StepName, int>, taken: seq<StepName>)
    requires IsDict(g) && Closed(g) && KahnInv(g, indegree, [], taken)
    ensures |taken| == |g.nodes| <==> Acyclic(g)
  {
    FullOrder(g, taken);
    if |taken| == |g.nodes| {
      TopologicalIsAcyclic(g, taken);
    } else {
      forall n | n in NodeSet(g) - Elements(taken) ensures PredsOf(g, n) - Elements(taken) != {} {
        assert n in indegree && n !in taken;
        assert Waiting(g, n, Elements(taken)) != {};
      }
      LeftoverIsCyclic(g, Elements(taken));
    }
  }

  // ---- readiness ----

  /** Short of all nodes, something is always ready. */
  lemma SomethingIsReady(g: Graph, done: set<StepName>)
    requires Valid(g) && done < NodeSet(g)
    ensures ReadySuccessors(g, done) != []
  {
    var left := NodeSet(g) - done;
    var x :| x in NodeSet(g) && x !in done;
    assert x in left;
    var m := MinimalNode(g, left);
    forall p | p in PredsOf(g, m) ensures p in done {
      assert p in NodeSet(g);
      assert p !in PredsOf(g, m) * left;
    }
    assert m in ReadySuccessors(g, done);
  }

  /** A ready node stays ready as `done` grows, until it is itself done. */
  lemma ReadyIsStable(g: Graph, done: set<StepName>, more: set<StepName>, n: StepName)
    requires done <= more && n in ReadySuccessors(g, done)
    ensures n in ReadySuccessors(g, more) <==> n !in more
  {}

  /** Nodes completed one at a time, each ready when its turn comes. */
  ghost predicate IsCompletion(g: Graph, order: seq<StepName>) {
    forall i :: 0 <= i < |order| ==> order[i] in ReadySuccessors(g, Elements(order[..i]))
  }

  /** Completing ready nodes in any order is a topological walk of the graph; it can stop exactly
      when every node has been visited, which is after |nodes| completions. */
  lemma CompletionIsTopologicalWalk(g: Graph, order: seq<StepName>)
    requires Valid(g) && IsCompletion(g, order)
    ensures IsTopological(g, order)
    ensures |order| <= |g.nodes|
    ensures ReadySuccessors(g, Elements(order)) == [] <==> |order| == |g.nodes|
    ensures |order| == |g.nodes| ==> Elements(order) == NodeSet(g)
  {
    forall i | 0 <= i < |order|
      ensures InOrder(g, order, i)
      ensures order[i] !in Elements(order[..i])
    {
      assert order[i] in ReadySuccessors(g, Elements(order[..i]));
    }
    forall i, j | 0 <= i < j < |order| ensures order[i] != order[j] {
      assert order[..j][i] == order[i];
      assert order[i] in order[..j];
    }
    FullOrder(g, order);
    var r := ReadySuccessors(g, Elements(order));
    if |order| < |g.nodes| {
      SomethingIsReady(g, Elements(order));
    } else {
      var done := Elements(order);
      FilterNone(g.nodes, n => n !in done && PredsOf(g, n) <= done);
    }
  }

  // ---- the shipped graph ----

  const PIPELINE: Graph := Graph(
    [Ocr, Metadata, Chunking, ExternalCall],
    map[Ocr := {}, Metadata := {Ocr}, Chunking := {Ocr}, ExternalCall := {Metadata, Chunking}])

  lemma PipelineIsValid()
    ensures Valid(PIPELINE)
    ensures EntryNodes(PIPELINE) == [Ocr]
    ensures TerminalNodes(PIPELINE) == [ExternalCall]
  {
    PipelineIsClosed();
    PipelineIsOrdered();
    TopologicalIsAcyclic(PIPELINE, PIPELINE.nodes);
    PipelineEnds();
  }

  lemma PipelineIsClosed()
    ensures IsDict(PIPELINE) && Closed(PIPELINE)
  {
    var nodes := PIPELINE.nodes;
    assert nodes[0] == Ocr && nodes[1] == Metadata && nodes[2] == Chunking && nodes[3] == ExternalCall;
    assert NodeSet(PIPELINE) == {Ocr, Metadata, Chunking, ExternalCall};
  }

  lemma PipelineIsOrdered()
    ensures IsTopological(PIPELINE, PIPELINE.nodes)
  {
    var nodes := PIPELINE.nodes;
    assert nodes[..1] == [Ocr];
    assert nodes[..2] == [Ocr, Metadata];
    assert nodes[..3] == [Ocr, Metadata, Chunking];
    assert Metadata in nodes[..3];
    assert InOrder(PIPELINE, nodes, 3);
  }

  lemma PipelineEnds()
    ensures EntryNodes(PIPELINE) == [Ocr]
    ensures TerminalNodes(PIPELINE) == [ExternalCall]
  {
    var nodes := PIPELINE.nodes;
    assert nodes[1..] == [Metadata, Chunking, ExternalCall];
    assert nodes[1..][1..] == [Chunking, ExternalCall];
    assert nodes[1..][1..][1..] == [ExternalCall];
    assert nodes[1..][1..][1..][1..] == [];
    var g := PIPELINE;
    assert Metadata in SuccessorsOf(g, Ocr);
    assert ExternalCall in SuccessorsOf(g, Metadata);
    assert ExternalCall in SuccessorsOf(g, Chunking);
    FilterNone(g.nodes, candidate => ExternalCall in PredsOf(g, candidate));
  }
}
