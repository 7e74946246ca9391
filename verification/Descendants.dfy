/**
 The transitive children of a process: the last-in-first-out worklist of
 crates/agent_mesh/src/executor.rs and the first-in-first-out one of scripts/agent_node.py.
 */
module Descendants {

  type Pid = nat

  /** One entry of a process snapshot. */
  datatype Process = Process(pid: Pid, parent: int)   // a negative parent means none

  predicate ChildOf(ps: seq<Process>, child: Pid, parent: Pid) {
    exists i :: 0 <= i < |ps| && ps[i].pid == child && ps[i].parent == parent
  }

  /** `p` is `n + 1` generations below `root`. */
  ghost predicate Below(ps: seq<Process>, p: Pid, root: Pid, n: nat)
    decreases n
  {
    if n == 0 then ChildOf(ps, p, root) else exists q: Pid :: ChildOf(ps, p, q) && Below(ps, q, root, n - 1)
  }

  ghost predicate Descendant(ps: seq<Process>, p: Pid, root: Pid) {
    exists n: nat :: Below(ps, p, root, n)
  }

  lemma ChildIsDescendant(ps: seq<Process>, p: Pid, q: Pid, root: Pid)
    requires ChildOf(ps, p, q) && (q == root || Descendant(ps, q, root))
    ensures Descendant(ps, p, root)
  {
    if q == root {
      assert Below(ps, p, root, 0);
    } else {
      var n: nat :| Below(ps, q, root, n);
      assert Below(ps, p, root, n + 1);
    }
  }

  /** A set that holds the children of the root and of each of its members holds every descendant. */
  lemma {:induction false} ClosedHoldsAll(ps: seq<Process>, found: set<Pid>, root: Pid, p: Pid, n: nat)
    requires Below(ps, p, root, n)
    requires forall c, q :: ChildOf(ps, c, q) && (q == root || q in found) ==> c in found
    ensures p in found
    decreases n
  {
    if n > 0 {
      var q: Pid :| ChildOf(ps, p, q) && Below(ps, q, root, n - 1);
      ClosedHoldsAll(ps, found, root, q, n - 1);
    }
  }

  ghost function Pids(ps: seq<Process>): set<Pid> {
    set i | 0 <= i < |ps| :: ps[i].pid
  }

  function Members(s: seq<Pid>): set<Pid> {
    set x | x in s
  }

  predicate Distinct(s: seq<Pid>) {
    forall i, j :: 0 <= i < j < |s| ==> s[i] != s[j]
  }

  /** The worklist between two rounds. */
  ghost predicate Working(ps: seq<Process>, root: Pid, found: seq<Pid>, queue: seq<Pid>) {
    && Distinct(found)
    && (forall p :: p in found ==> Descendant(ps, p, root) && p in Pids(ps))
    && (forall q :: q in queue ==> q == root || q in found)
    && (forall c, q :: ChildOf(ps, c, q) && (q == root || q in found) && q !in queue ==> c in found)
  }

  /** One round: the children of `parent` not found before join both lists. */
  method AddChildren(ps: seq<Process>, root: Pid, parent: Pid, found: seq<Pid>, queue: seq<Pid>)
    returns (found': seq<Pid>, queue': seq<Pid>)
    requires Distinct(found) && (parent == root || parent in found)
    requires forall p :: p in found ==> Descendant(ps, p, root) && p in Pids(ps)
    ensures found <= found' && queue' == queue + found'[|found|..]
    ensures Distinct(found')
    ensures forall p :: p in found' ==> Descendant(ps, p, root) && p in Pids(ps)
    ensures forall c :: ChildOf(ps, c, parent) ==> c in found'
  {
    found', queue' := found, queue;
    for i := 0 to |ps|
      invariant found <= found' && queue' == queue + found'[|found|..]
      invariant Distinct(found')
      invariant forall p :: p in found' ==> Descendant(ps, p, root) && p in Pids(ps)
      invariant forall j :: 0 <= j < i && ps[j].parent == parent ==> ps[j].pid in found'
    {
      if ps[i].parent == parent && ps[i].pid !in found' {
        assert ChildOf(ps, ps[i].pid, parent);
        ChildIsDescendant(ps, ps[i].pid, parent, root);
        found' := found' + [ps[i].pid];
        queue' := queue' + [ps[i].pid];
      }
    }
  }

  lemma WorkStep(ps: seq<Process>, root: Pid, parent: Pid, found: seq<Pid>, rest: seq<Pid>, found': seq<Pid>, queue': seq<Pid>)
    requires Distinct(found') && found <= found' && queue' == rest + found'[|found|..]
    requires forall p :: p in found' ==> Descendant(ps, p, root) && p in Pids(ps)
    requires forall q :: q in rest ==> q == root || q in found
    requires forall c, q :: ChildOf(ps, c, q) && (q == root || q in found) && q != parent && q !in rest ==> c in found
    requires forall c :: ChildOf(ps, c, parent) ==> c in found'
    ensures Working(ps, root, found', queue')
  {
    forall q | q in found'
      ensures q in found || q in queue'
    {
      var i :| 0 <= i < |found'| && found'[i] == q;
      if i >= |found| {
        assert queue'[|rest| + i - |found|] == q;
      }
    }
    forall q | q in queue'
      ensures q == root || q in found'
    {
      var i :| 0 <= i < |queue'| && queue'[i] == q;
      if i < |rest| {
        assert q in rest;
        assert q == root || q in found;
      } else {
        assert q == found'[|found| + i - |rest|];
      }
    }
    forall c, q | ChildOf(ps, c, q) && (q == root || q in found') && q !in queue'
      ensures c in found'
    {
      assert q !in rest;
      if q != parent {
        assert c in found;
      }
    }
  }

  lemma {:induction false} MembersCount(s: seq<Pid>)
    requires Distinct(s)
    ensures |Members(s)| == |s|
  {
    if s != [] {
      var last := |s| - 1;
      MembersCount(s[..last]);
      assert Members(s) == Members(s[..last]) + {s[last]};
    }
  }

  lemma FoundBounded(ps: seq<Process>, found: seq<Pid>)
    requires Distinct(found) && forall p :: p in found ==> p in Pids(ps)
    ensures |found| <= |Pids(ps)|
  {
    MembersCount(found);
    SubsetSize(Members(found), Pids(ps));
  }

  lemma {:induction false} SubsetSize(a: set<Pid>, b: set<Pid>)
    requires a <= b
    ensures |a| <= |b|
  {
    if a != {} {
      var x :| x in a;
      SubsetSize(a - {x}, b - {x});
    }
  }

  lemma DoneIsComplete(ps: seq<Process>, root: Pid, found: seq<Pid>)
    requires Working(ps, root, found, [])
    ensures forall p :: p in found <==> Descendant(ps, p, root)
  {
    forall p | Descendant(ps, p, root)
      ensures p in found
    {
      var n: nat :| Below(ps, p, root, n);
      ClosedHoldsAll(ps, Members(found), root, p, n);
    }
  }

  /** Last in, first out, over the whole process table in each round. Cycles in the table are harmless. */
  method CollectLifo(ps: seq<Process>, root: Pid) returns (found: seq<Pid>)
    ensures Distinct(found)
    ensures forall p :: p in found <==> Descendant(ps, p, root)
  {
    found := [];
    var queue := [root];
    while queue != []
      invariant Working(ps, root, found, queue)
      decreases |Pids(ps)| - |found|, |queue|
    {
      var parent := queue[|queue| - 1];
      var rest := queue[..|queue| - 1];
      ghost var before := found;
      assert forall q :: q in queue ==> q in rest || q == parent;
      found, queue := AddChildren(ps, root, parent, found, rest);
      WorkStep(ps, root, parent, before, rest, found, queue);
      FoundBounded(ps, found);
    }
    DoneIsComplete(ps, root, found);
  }

  type Children = map<int, seq<Pid>>

  function ChildrenOf(m: Children, parent: int): seq<Pid> {
    if parent in m then m[parent] else []
  }

  /** One pass over the snapshot files every process under its parent. */
  method ParentMap(ps: seq<Process>) returns (m: Children)
    ensures forall c, q: Pid :: c in ChildrenOf(m, q) <==> ChildOf(ps, c, q)
  {
    m := map[];
    for i := 0 to |ps|
      invariant forall c, q: Pid :: c in ChildrenOf(m, q) <==> ChildOf(ps[..i], c, q)
    {
      var p := ps[i];
      ghost var before := m;
      m := m[p.parent := ChildrenOf(m, p.parent) + [p.pid]];
      forall c, q: Pid
        ensures c in ChildrenOf(m, q) <==> ChildOf(ps[..i + 1], c, q)
      {
        ChildOfAppend(ps, i, c, q);
      }
    }
    assert ps[..|ps|] == ps;
  }

  lemma ChildOfAppend(ps: seq<Process>, i: nat, c: Pid, q: Pid)
    requires i < |ps|
    ensures ChildOf(ps[..i + 1], c, q) <==> ChildOf(ps[..i], c, q) || ps[i] == Process(c, q)
  {
    if ChildOf(ps[..i], c, q) {
      var k :| 0 <= k < i && ps[..i][k].pid == c && ps[..i][k].parent == q;
      assert ps[..i + 1][k] == ps[..i][k];
    }
    if ps[i] == Process(c, q) {
      assert ps[..i + 1][i] == ps[i];
    }
    if ChildOf(ps[..i + 1], c, q) {
      var k :| 0 <= k < i + 1 && ps[..i + 1][k].pid == c && ps[..i + 1][k].parent == q;
      if k < i {
        assert ps[..i][k] == ps[..i + 1][k];
      }
    }
  }

  method AddListed(ps: seq<Process>, root: Pid, parent: Pid, children: seq<Pid>, found: seq<Pid>, queue: seq<Pid>)
    returns (found': seq<Pid>, queue': seq<Pid>)
    requires Distinct(found) && (parent == root || parent in found)
    requires forall p :: p in found ==> Descendant(ps, p, root) && p in Pids(ps)
    requires forall c :: c in children <==> ChildOf(ps, c, parent)
    ensures found <= found' && queue' == queue + found'[|found|..]
    ensures Distinct(found')
    ensures forall p :: p in found' ==> Descendant(ps, p, root) && p in Pids(ps)
    ensures forall c :: ChildOf(ps, c, parent) ==> c in found'
  {
    found', queue' := found, queue;
    for i := 0 to |children|
      invariant found <= found' && queue' == queue + found'[|found|..]
      invariant Distinct(found')
      invariant forall p :: p in found' ==> Descendant(ps, p, root) && p in Pids(ps)
      invariant forall j :: 0 <= j < i ==> children[j] in found'
    {
      if children[i] !in found' {
        assert ChildOf(ps, children[i], parent);
        ChildIsDescendant(ps, children[i], parent, root);
        found' := found' + [children[i]];
        queue' := queue' + [children[i]];
      }
    }
  }

  /** First in, first out, over a map from parents to children. */
  method CollectFifo(ps: seq<Process>, root: Pid) returns (found: seq<Pid>)
    ensures Distinct(found)
    ensures forall p :: p in found <==> Descendant(ps, p, root)
  {
    var parents := ParentMap(ps);
    found := [];
    var queue := [root];
    while queue != []
      invariant Working(ps, root, found, queue)
      decreases |Pids(ps)| - |found|, |queue|
    {
      var parent := queue[0];
      var rest := queue[1..];
      ghost var before := found;
      assert forall q :: q in queue ==> q in rest || q == parent;
      found, queue := AddListed(ps, root, parent, ChildrenOf(parents, parent), found, rest);
      WorkStep(ps, root, parent, before, rest, found, queue);
      FoundBounded(ps, found);
    }
    DoneIsComplete(ps, root, found);
  }

  /** Whichever end the worklist is taken from, the result differs in order only. */
  lemma {:induction false} SameUpToOrder(ps: seq<Process>, root: Pid, a: seq<Pid>, b: seq<Pid>)
    requires Distinct(a) && forall p :: p in a <==> Descendant(ps, p, root)
    requires Distinct(b) && forall p :: p in b <==> Descendant(ps, p, root)
    ensures multiset(a) == multiset(b)
  {
    forall p ensures multiset(a)[p] == multiset(b)[p] {
      DistinctCount(a, p);
      DistinctCount(b, p);
    }
  }

  lemma {:induction false} DistinctCount(s: seq<Pid>, p: Pid)
    requires Distinct(s)
    ensures multiset(s)[p] == if p in s then 1 else 0
  {
    if s != [] {
      var last := |s| - 1;
      assert s == s[..last] + [s[last]];
      DistinctCount(s[..last], p);
    }
  }
}
