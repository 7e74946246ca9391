/**
 What the traversal visits, in terms of the tree alone: every entry of every directory that can be
 reached through names that make a valid path, except the directories it goes into, each once.
 */
module TreeProofs {
  import opened Separated
  import opened Paths
  import opened Tree

  /** File systems allow no slash in a name and no name twice in a directory. */
  predicate WellFormed(es: seq<Entry>)
    decreases es
  {
    && (forall i, j :: 0 <= i < j < |es| ==> es[i].name.bytes != es[j].name.bytes)
    && (forall i :: 0 <= i < |es| ==> Free(es[i].name.bytes, '/') && WellFormedEntry(es[i]))
  }

  predicate WellFormedEntry(e: Entry)
    decreases e
  {
    e.node.Dir? ==> WellFormed(e.node.entries)
  }

  /** Following the names `segs` from a directory with entries `es` leads to one with entries `end`. */
  ghost predicate Leads(es: seq<Entry>, segs: seq<string>, end: seq<Entry>)
    decreases |segs|
  {
    if segs == [] then es == end
    else exists e :: e in es && e.name == Name(segs[0], true) && e.node.Dir? && Leads(e.node.entries, segs[1..], end)
  }

  /** The visit's directory is reached from `es` along `segs`, `dir` being what leads to `es`. */
  ghost predicate ReachedBy(pre: seq<string>, es: seq<Entry>, v: Visit, segs: seq<string>, end: seq<Entry>) {
    && Leads(es, segs, end)
    && v.dir == PathOf(pre + segs)
    && (segs == [] || ValidPath(v.dir))
    && Entry(v.name, v.node) in end
    && !Descends(v.dir, Entry(v.name, v.node))
  }

  ghost predicate Reached(pre: seq<string>, es: seq<Entry>, v: Visit) {
    exists segs, end :: ReachedBy(pre, es, v, segs, end)
  }

  /** The names leading to a directory that is there make a path up to it. */
  predicate Prefix(pre: seq<string>) {
    AllFree(pre, '/') && (pre == [] || ValidPath(PathOf(pre)))
  }

  lemma NodeOf(es: seq<Entry>, e: Entry)
    requires WellFormed(es) && e in es
    ensures Free(e.name.bytes, '/') && WellFormedEntry(e)
  {
  }

  lemma {:induction false} LeadsFree(es: seq<Entry>, segs: seq<string>, end: seq<Entry>)
    requires WellFormed(es) && Leads(es, segs, end)
    ensures AllFree(segs, '/') && WellFormed(end)
    decreases |segs|
  {
    if segs != [] {
      var e :| e in es && e.name == Name(segs[0], true) && e.node.Dir? && Leads(e.node.entries, segs[1..], end);
      NodeOf(es, e);
      LeadsFree(e.node.entries, segs[1..], end);
      forall i | 0 <= i < |segs| ensures Free(segs[i], '/') {
        if i > 0 {
          assert segs[i] == segs[1..][i - 1];
        }
      }
    }
  }

  lemma {:induction false} LeadsUnique(es: seq<Entry>, segs: seq<string>, a: seq<Entry>, b: seq<Entry>)
    requires WellFormed(es) && Leads(es, segs, a) && Leads(es, segs, b)
    ensures a == b
    decreases |segs|
  {
    if segs != [] {
      var e :| e in es && e.name == Name(segs[0], true) && e.node.Dir? && Leads(e.node.entries, segs[1..], a);
      var f :| f in es && f.name == Name(segs[0], true) && f.node.Dir? && Leads(f.node.entries, segs[1..], b);
      SameName(es, e, f);
      NodeOf(es, e);
      LeadsUnique(e.node.entries, segs[1..], a, b);
    }
  }

  lemma SameName(es: seq<Entry>, e: Entry, f: Entry)
    requires WellFormed(es) && e in es && f in es && e.name.bytes == f.name.bytes
    ensures e == f
  {
    var i :| 0 <= i < |es| && es[i] == e;
    var j :| 0 <= j < |es| && es[j] == f;
    assert !(i < j) && !(j < i);
  }

  // ---- Membership --------------------------------------------------------------------------

  lemma {:induction false} InTreeVisits(dir: Path, es: seq<Entry>, v: Visit)
    ensures v in TreeVisits(dir, es) <==> exists e :: e in es && v in EntryVisits(dir, e)
  {
    if es != [] {
      var last := es[|es| - 1];
      var front := es[..|es| - 1];
      InTreeVisits(dir, front, v);
      assert es == front + [last];
      if v in TreeVisits(dir, front) {
        var e :| e in front && v in EntryVisits(dir, e);
        assert e in es;
      }
      if e :| e in es && v in EntryVisits(dir, e) {
        assert e in front || e == last;
      }
    }
  }

  /** One level down: what is reached in a subdirectory is reached from the directory. */
  lemma ReachedThrough(pre: seq<string>, es: seq<Entry>, e: Entry, v: Visit)
    requires Prefix(pre) && WellFormed(es) && e in es && Descends(PathOf(pre), e)
    requires Reached(pre + [e.name.bytes], e.node.entries, v)
    ensures Reached(pre, es, v)
  {
    var name := e.name.bytes;
    var segs, end :| ReachedBy(pre + [name], e.node.entries, v, segs, end);
    assert pre + ([name] + segs) == (pre + [name]) + segs;
    assert ([name] + segs)[1..] == segs;
    assert e.name == Name(name, true);
    assert Leads(es, [name] + segs, end);
    if segs == [] {
      PathOfAppend(pre, name);
      assert pre + [name] + segs == pre + [name];
    }
    assert ReachedBy(pre, es, v, [name] + segs, end);
  }

  /** And back: what is reached, but not in the directory itself, is reached in one subdirectory. */
  lemma ReachedBelow(pre: seq<string>, es: seq<Entry>, v: Visit, segs: seq<string>, end: seq<Entry>) returns (e: Entry)
    requires Prefix(pre) && WellFormed(es) && ReachedBy(pre, es, v, segs, end) && segs != []
    ensures e in es && e.name == Name(segs[0], true) && Descends(PathOf(pre), e)
    ensures ReachedBy(pre + [e.name.bytes], e.node.entries, v, segs[1..], end)
  {
    e :| e in es && e.name == Name(segs[0], true) && e.node.Dir? && Leads(e.node.entries, segs[1..], end);
    var name := segs[0];
    LeadsFree(es, segs, end);
    assert pre + segs == (pre + [name]) + segs[1..];
    AllFreeConcat(pre, segs);
    assert (pre + segs)[..|pre| + 1] == pre + [name];
    PrefixIsValid(pre + segs, |pre| + 1);
    PathOfAppend(pre, name);
  }

  lemma AllFreeConcat(a: seq<string>, b: seq<string>)
    requires AllFree(a, '/') && AllFree(b, '/')
    ensures AllFree(a + b, '/')
  {
  }

  lemma PrefixDown(pre: seq<string>, e: Entry)
    requires Prefix(pre) && Descends(PathOf(pre), e) && Free(e.name.bytes, '/')
    ensures Prefix(pre + [e.name.bytes])
    ensures PathOf(pre + [e.name.bytes]) == JoinPath(PathOf(pre), e.name.bytes)
  {
    PathOfAppend(pre, e.name.bytes);
  }

  lemma {:induction false} VisitedIsReached(pre: seq<string>, es: seq<Entry>, v: Visit)
    requires Prefix(pre) && WellFormed(es) && v in TreeVisits(PathOf(pre), es)
    ensures Reached(pre, es, v)
    decreases es
  {
    InTreeVisits(PathOf(pre), es, v);
    var e :| e in es && v in EntryVisits(PathOf(pre), e);
    VisitedInEntry(pre, es, e, v);
  }

  lemma {:induction false} VisitedInEntry(pre: seq<string>, es: seq<Entry>, e: Entry, v: Visit)
    requires Prefix(pre) && WellFormed(es) && e in es && v in EntryVisits(PathOf(pre), e)
    ensures Reached(pre, es, v)
    decreases e
  {
    NodeOf(es, e);
    if Descends(PathOf(pre), e) {
      PrefixDown(pre, e);
      VisitedIsReached(pre + [e.name.bytes], e.node.entries, v);
      ReachedThrough(pre, es, e, v);
    } else {
      assert pre + [] == pre;
      assert ReachedBy(pre, es, v, [], es);
    }
  }

  lemma {:induction false} ReachedIsVisited(pre: seq<string>, es: seq<Entry>, v: Visit, segs: seq<string>, end: seq<Entry>)
    requires Prefix(pre) && WellFormed(es) && ReachedBy(pre, es, v, segs, end)
    ensures v in TreeVisits(PathOf(pre), es)
    decreases |segs|
  {
    InTreeVisits(PathOf(pre), es, v);
    if segs == [] {
      assert pre + segs == pre;
      assert v in EntryVisits(PathOf(pre), Entry(v.name, v.node));
    } else {
      var e := ReachedBelow(pre, es, v, segs, end);
      NodeOf(es, e);
      PrefixDown(pre, e);
      ReachedIsVisited(pre + [e.name.bytes], e.node.entries, v, segs[1..], end);
      assert v in EntryVisits(PathOf(pre), e);
    }
  }

  /** The scan of a tree visits exactly what can be reached from its root. */
  lemma WalkVisitsReached(root: Node, v: Visit)
    requires root.Dir? && WellFormed(root.entries)
    ensures v in Walk(root) <==> Reached([], root.entries, v)
  {
    OrderVisitsTree([RootFrame(root)]);
    OneFrame(RootFrame(root));
    assert v in Walk(root) <==> v in multiset(Walk(root));
    assert PathOf([]) == [];
    if v in Walk(root) {
      VisitedIsReached([], root.entries, v);
    }
    if Reached([], root.entries, v) {
      var segs, end :| ReachedBy([], root.entries, v, segs, end);
      ReachedIsVisited([], root.entries, v, segs, end);
    }
  }

  // ---- Each entry once ---------------------------------------------------------------------

  /** Visits of the same directory and name are the same visit. */
  lemma ReachedOnce(pre: seq<string>, es: seq<Entry>, v: Visit, w: Visit)
    requires Prefix(pre) && WellFormed(es) && Reached(pre, es, v) && Reached(pre, es, w)
    requires v.dir == w.dir && v.name.bytes == w.name.bytes
    ensures v == w
  {
    var a, enda :| ReachedBy(pre, es, v, a, enda);
    var b, endb :| ReachedBy(pre, es, w, b, endb);
    LeadsFree(es, a, enda);
    LeadsFree(es, b, endb);
    SameDir(pre, a, b);
    LeadsUnique(es, a, enda, endb);
    SameName(enda, Entry(v.name, v.node), Entry(w.name, w.node));
  }

  lemma SameDir(pre: seq<string>, a: seq<string>, b: seq<string>)
    requires Prefix(pre) && AllFree(a, '/') && AllFree(b, '/') && PathOf(pre + a) == PathOf(pre + b)
    requires (a == [] || ValidPath(PathOf(pre + a))) && (b == [] || ValidPath(PathOf(pre + b)))
    ensures a == b
  {
    AllFreeConcat(pre, a);
    AllFreeConcat(pre, b);
    assert PathOf([]) == [];
    if pre + a != [] && pre + b != [] {
      PathOfInjective(pre + a, pre + b);
      assert a == (pre + a)[|pre|..] && b == (pre + b)[|pre|..];
    }
  }

  /** An entry's visits all lie in its own directory under its own name, or below it. */
  ghost predicate Under(pre: seq<string>, name: string, v: Visit) {
    (v.dir == PathOf(pre) && v.name.bytes == name) || exists segs ::
      AllFree(segs, '/') && v.dir == PathOf(pre + [name] + segs) && ValidPath(v.dir)
  }

  lemma VisitsAreUnder(pre: seq<string>, es: seq<Entry>, e: Entry, v: Visit)
    requires Prefix(pre) && WellFormed(es) && e in es && v in EntryVisits(PathOf(pre), e)
    ensures Under(pre, e.name.bytes, v)
  {
    NodeOf(es, e);
    if Descends(PathOf(pre), e) {
      PrefixDown(pre, e);
      VisitedIsReached(pre + [e.name.bytes], e.node.entries, v);
      var segs, end :| ReachedBy(pre + [e.name.bytes], e.node.entries, v, segs, end);
      LeadsFree(e.node.entries, segs, end);
      if segs == [] {
        assert pre + [e.name.bytes] + segs == pre + [e.name.bytes];
      }
    }
  }

  lemma UnderOne(pre: seq<string>, a: string, b: string, v: Visit)
    requires Prefix(pre) && Free(a, '/') && Free(b, '/') && Under(pre, a, v) && Under(pre, b, v)
    ensures a == b
  {
    assert PathOf([]) == [];
    if !(v.dir == PathOf(pre) && v.name.bytes == a) {
      var x :| AllFree(x, '/') && v.dir == PathOf(pre + [a] + x) && ValidPath(v.dir);
      UnderName(pre, a, x, b, v);
    } else if v.name.bytes != b {
      var y :| AllFree(y, '/') && v.dir == PathOf(pre + [b] + y) && ValidPath(v.dir);
      UnderName(pre, b, y, a, v);
    }
  }

  lemma UnderName(pre: seq<string>, a: string, x: seq<string>, b: string, v: Visit)
    requires Prefix(pre) && Free(a, '/') && AllFree(x, '/') && v.dir == PathOf(pre + [a] + x) && ValidPath(v.dir)
    requires Free(b, '/') && Under(pre, b, v)
    ensures a == b
  {
    var left := pre + [a] + x;
    AllFreeConcat(pre, [a]);
    AllFreeConcat(pre + [a], x);
    assert PathOf([]) == [];
    if v.dir == PathOf(pre) {
      assert |left| > |pre|;
      if pre != [] {
        PathOfInjective(left, pre);
      }
    } else {
      var y :| AllFree(y, '/') && v.dir == PathOf(pre + [b] + y) && ValidPath(v.dir);
      AllFreeConcat(pre, [b]);
      AllFreeConcat(pre + [b], y);
      PathOfInjective(left, pre + [b] + y);
      assert left[|pre|] == a && (pre + [b] + y)[|pre|] == b;
    }
  }

  lemma {:induction false} VisitedOnce(pre: seq<string>, es: seq<Entry>, v: Visit)
    requires Prefix(pre) && WellFormed(es)
    ensures TreeVisits(PathOf(pre), es)[v] <= 1
    decreases es
  {
    if es != [] {
      var last := es[|es| - 1];
      var front := es[..|es| - 1];
      assert WellFormed(front);
      VisitedOnce(pre, front, v);
      EntryVisitedOnce(pre, es, last, v);
      if v in TreeVisits(PathOf(pre), front) && v in EntryVisits(PathOf(pre), last) {
        InTreeVisits(PathOf(pre), front, v);
        var e :| e in front && v in EntryVisits(PathOf(pre), e);
        var k :| 0 <= k < |front| && front[k] == e;
        assert es[k] == e && es[k].name.bytes != last.name.bytes;
        VisitsAreUnder(pre, es, e, v);
        VisitsAreUnder(pre, es, last, v);
        UnderOne(pre, e.name.bytes, last.name.bytes, v);
      }
    }
  }

  lemma {:induction false} EntryVisitedOnce(pre: seq<string>, es: seq<Entry>, e: Entry, v: Visit)
    requires Prefix(pre) && WellFormed(es) && e in es
    ensures EntryVisits(PathOf(pre), e)[v] <= 1
    decreases e
  {
    NodeOf(es, e);
    if Descends(PathOf(pre), e) {
      PrefixDown(pre, e);
      VisitedOnce(pre + [e.name.bytes], e.node.entries, v);
    }
  }

  lemma CountTwice(s: seq<Visit>, i: nat, j: nat)
    requires i < j < |s| && s[i] == s[j]
    ensures multiset(s)[s[i]] >= 2
  {
    assert s == s[..j] + s[j..];
    assert s[i] in s[..j] && s[j] in s[j..];
  }

  /** No two visits of a walk are to the same name in the same directory. */
  lemma WalkOnce(root: Node, i: nat, j: nat)
    requires root.Dir? && WellFormed(root.entries) && i < j < |Walk(root)|
    ensures Walk(root)[i].dir != Walk(root)[j].dir || Walk(root)[i].name.bytes != Walk(root)[j].name.bytes
  {
    var v, w := Walk(root)[i], Walk(root)[j];
    if v.dir == w.dir && v.name.bytes == w.name.bytes {
      WalkVisitsReached(root, v);
      WalkVisitsReached(root, w);
      ReachedOnce([], root.entries, v, w);
      CountTwice(Walk(root), i, j);
      OrderVisitsTree([RootFrame(root)]);
      OneFrame(RootFrame(root));
      assert PathOf([]) == [];
      VisitedOnce([], root.entries, v);
    }
  }
}
