/** What a completed directory scan sends and what it leaves out. */
module ScanProofs {
  import opened Separated
  import opened Paths
  import opened Tree
  import opened TreeProofs

  ghost predicate Lists(es: seq<Entry>, segs: seq<string>, e: Entry) {
    exists end :: Leads(es, segs, end) && e in end
  }

  /** `node` is found by following the names `segs` from the root. */
  ghost predicate At(root: Node, segs: seq<string>, node: Node)
    requires root.Dir?
  {
    segs != [] && Lists(root.entries, segs[..|segs| - 1], Entry(Name(segs[|segs| - 1], true), node))
  }

  function Sent(h: Hash, segs: seq<string>, node: Node): BlobFile
    requires node.File?
  {
    BlobFile(PathOf(segs), h(node.data), |node.data|, node.executable)
  }

  lemma {:induction false} FilesAre(h: Hash, visits: seq<Visit>, f: BlobFile)
    ensures f in FilesOf(h, visits) <==> exists v :: v in visits && Sends(v) && FileOf(h, v) == f
  {
    if visits != [] {
      var front, last := visits[..|visits| - 1], visits[|visits| - 1];
      FilesAre(h, front, f);
      assert visits == front + [last];
      if f in FilesOf(h, front) {
        var v :| v in front && Sends(v) && FileOf(h, v) == f;
        assert v in visits;
      }
      if v :| v in visits && Sends(v) && FileOf(h, v) == f {
        assert v in front || v == last;
      }
    }
  }

  lemma {:induction false} SkipsAre(visits: seq<Visit>, s: Skipped)
    ensures s in SkipsOf(visits) <==> exists v :: v in visits && !Sends(v) && SkipOf(v) == s
  {
    if visits != [] {
      var front, last := visits[..|visits| - 1], visits[|visits| - 1];
      SkipsAre(front, s);
      assert visits == front + [last];
      if s in SkipsOf(front) {
        var v :| v in front && !Sends(v) && SkipOf(v) == s;
        assert v in visits;
      }
      if v :| v in visits && !Sends(v) && SkipOf(v) == s {
        assert v in front || v == last;
      }
    }
  }

  lemma SentIsVisited(h: Hash, root: Node, segs: seq<string>, node: Node)
    requires root.Dir? && WellFormed(root.entries)
    requires At(root, segs, node) && node.File? && ValidPath(PathOf(segs))
    ensures Sent(h, segs, node) in FilesOf(h, Walk(root))
  {
    var last := |segs| - 1;
    var end :| Leads(root.entries, segs[..last], end) && Entry(Name(segs[last], true), node) in end;
    var v := Visit(PathOf(segs[..last]), Name(segs[last], true), node);
    LeadsFree(root.entries, segs[..last], end);
    NodeOf(end, Entry(v.name, v.node));
    AllFreeConcat(segs[..last], [segs[last]]);
    assert segs == segs[..last] + [segs[last]];
    if last > 0 {
      ParentIsValid(segs[..last], segs[last]);
    }
    PathOfAppend(segs[..last], segs[last]);
    assert [] + segs[..last] == segs[..last];
    assert ReachedBy([], root.entries, v, segs[..last], end);
    WalkVisitsReached(root, v);
    FilesAre(h, Walk(root), Sent(h, segs, node));
  }

  lemma VisitedIsSent(h: Hash, root: Node, f: BlobFile) returns (segs: seq<string>, node: Node)
    requires root.Dir? && WellFormed(root.entries) && f in FilesOf(h, Walk(root))
    ensures At(root, segs, node) && node.File? && ValidPath(PathOf(segs)) && f == Sent(h, segs, node)
    ensures AllFree(segs, '/')
  {
    FilesAre(h, Walk(root), f);
    var v :| v in Walk(root) && Sends(v) && FileOf(h, v) == f;
    WalkVisitsReached(root, v);
    var names, end :| ReachedBy([], root.entries, v, names, end);
    assert [] + names == names;
    LeadsFree(root.entries, names, end);
    NodeOf(end, Entry(v.name, v.node));
    segs, node := names + [v.name.bytes], v.node;
    assert segs[..|names|] == names;
    PathOfAppend(names, v.name.bytes);
    AllFreeConcat(names, [v.name.bytes]);
  }

  /** A scan sends exactly the regular files found along names that make a valid relative path. */
  lemma ScanSendsExactly(h: Hash, root: Node, f: BlobFile)
    requires root.Dir? && WellFormed(root.entries)
    ensures f in FilesOf(h, Walk(root)) <==>
            exists segs, node :: At(root, segs, node) && node.File? && ValidPath(PathOf(segs)) && f == Sent(h, segs, node)
  {
    if f in FilesOf(h, Walk(root)) {
      var segs, node := VisitedIsSent(h, root, f);
    }
    if segs, node :| At(root, segs, node) && node.File? && ValidPath(PathOf(segs)) && f == Sent(h, segs, node) {
      SentIsVisited(h, root, segs, node);
    }
  }

  // ---- Distinct paths ----------------------------------------------------------------------

  predicate DistinctPaths(files: seq<BlobFile>) {
    forall i, j :: 0 <= i < j < |files| ==> files[i].path != files[j].path
  }

  lemma {:induction false} FilesDistinct(h: Hash, visits: seq<Visit>)
    requires forall i, j :: 0 <= i < j < |visits| && Sends(visits[i]) && Sends(visits[j]) ==>
                              FileOf(h, visits[i]).path != FileOf(h, visits[j]).path
    ensures DistinctPaths(FilesOf(h, visits))
  {
    if visits != [] {
      var front, last := visits[..|visits| - 1], visits[|visits| - 1];
      FilesDistinct(h, front);
      if Sends(last) {
        forall f | f in FilesOf(h, front)
          ensures f.path != FileOf(h, last).path
        {
          FilesAre(h, front, f);
          var v :| v in front && Sends(v) && FileOf(h, v) == f;
          var k :| 0 <= k < |front| && front[k] == v;
          assert visits[k] == v;
        }
      }
    }
  }

  lemma SamePathSameVisit(root: Node, v: Visit, w: Visit)
    requires root.Dir? && WellFormed(root.entries) && v in Walk(root) && w in Walk(root)
    requires JoinPath(v.dir, v.name.bytes) == JoinPath(w.dir, w.name.bytes)
    ensures v.dir == w.dir && v.name.bytes == w.name.bytes
  {
    WalkVisitsReached(root, v);
    WalkVisitsReached(root, w);
    var a, enda :| ReachedBy([], root.entries, v, a, enda);
    var b, endb :| ReachedBy([], root.entries, w, b, endb);
    assert [] + a == a && [] + b == b;
    LeadsFree(root.entries, a, enda);
    LeadsFree(root.entries, b, endb);
    NodeOf(enda, Entry(v.name, v.node));
    NodeOf(endb, Entry(w.name, w.node));
    PathOfAppend(a, v.name.bytes);
    PathOfAppend(b, w.name.bytes);
    AllFreeConcat(a, [v.name.bytes]);
    AllFreeConcat(b, [w.name.bytes]);
    PathOfInjective(a + [v.name.bytes], b + [w.name.bytes]);
    assert (a + [v.name.bytes])[|a|] == v.name.bytes && (a + [v.name.bytes])[..|a|] == a;
    assert (b + [w.name.bytes])[|b|] == w.name.bytes && (b + [w.name.bytes])[..|b|] == b;
  }

  /** Every file of a scan has a path of its own. */
  lemma ScanPathsDistinct(h: Hash, root: Node)
    requires root.Dir? && WellFormed(root.entries)
    ensures DistinctPaths(FilesOf(h, Walk(root)))
  {
    var visits := Walk(root);
    forall i, j | 0 <= i < j < |visits| && Sends(visits[i]) && Sends(visits[j])
      ensures FileOf(h, visits[i]).path != FileOf(h, visits[j]).path
    {
      WalkOnce(root, i, j);
      if FileOf(h, visits[i]).path == FileOf(h, visits[j]).path {
        SamePathSameVisit(root, visits[i], visits[j]);
      }
    }
    FilesDistinct(h, visits);
  }

  // ---- What is left out --------------------------------------------------------------------

  predicate DistinctSkips(skips: seq<Skipped>) {
    forall i, j :: 0 <= i < j < |skips| ==> skips[i].dir != skips[j].dir || skips[i].name.bytes != skips[j].name.bytes
  }

  lemma {:induction false} SkipsDistinct(visits: seq<Visit>)
    requires forall i, j :: 0 <= i < j < |visits| ==>
                              visits[i].dir != visits[j].dir || visits[i].name.bytes != visits[j].name.bytes
    ensures DistinctSkips(SkipsOf(visits))
  {
    if visits != [] {
      var front, last := visits[..|visits| - 1], visits[|visits| - 1];
      SkipsDistinct(front);
      if !Sends(last) {
        forall s | s in SkipsOf(front)
          ensures s.dir != last.dir || s.name.bytes != last.name.bytes
        {
          SkipsAre(front, s);
          var v :| v in front && !Sends(v) && SkipOf(v) == s;
          var k :| 0 <= k < |front| && front[k] == v;
          assert visits[k] == v;
        }
      }
    }
  }

  /** Why an entry is left out, if it is. */
  predicate LeftOut(dir: Path, name: Name, node: Node, why: Reason) {
    match why
    case NotUtf8 => !name.utf8
    case BadPath => name.utf8 && !ValidPath(JoinPath(dir, name.bytes))
    case IsLink => name.utf8 && ValidPath(JoinPath(dir, name.bytes)) && node.Link?
    case NotRegular => name.utf8 && ValidPath(JoinPath(dir, name.bytes)) && (node.Special? || node.Unknown?)
  }

  /**
   A scan records, each once and with its reason, exactly the entries of reachable directories that
   have a bad name, whatever they are, or that are neither a regular file nor a directory.
   */
  lemma ScanSkipsExactly(root: Node, s: Skipped)
    requires root.Dir? && WellFormed(root.entries)
    ensures s in SkipsOf(Walk(root)) <==>
            exists node :: Reached([], root.entries, Visit(s.dir, s.name, node)) && LeftOut(s.dir, s.name, node, s.why)
    ensures DistinctSkips(SkipsOf(Walk(root)))
  {
    var visits := Walk(root);
    if s in SkipsOf(visits) {
      var node := SkippedIsReached(root, s);
    }
    if node :| Reached([], root.entries, Visit(s.dir, s.name, node)) && LeftOut(s.dir, s.name, node, s.why) {
      ReachedIsSkipped(root, s, node);
    }
    forall i, j | 0 <= i < j < |visits|
      ensures visits[i].dir != visits[j].dir || visits[i].name.bytes != visits[j].name.bytes
    {
      WalkOnce(root, i, j);
    }
    SkipsDistinct(visits);
  }

  lemma SkipReason(v: Visit, s: Skipped)
    requires !Descends(v.dir, Entry(v.name, v.node))
    ensures !Sends(v) && SkipOf(v) == s <==> v.dir == s.dir && v.name == s.name && LeftOut(v.dir, v.name, v.node, s.why)
  {
  }

  lemma SkippedIsReached(root: Node, s: Skipped) returns (node: Node)
    requires root.Dir? && WellFormed(root.entries) && s in SkipsOf(Walk(root))
    ensures Reached([], root.entries, Visit(s.dir, s.name, node)) && LeftOut(s.dir, s.name, node, s.why)
  {
    SkipsAre(Walk(root), s);
    var v :| v in Walk(root) && !Sends(v) && SkipOf(v) == s;
    WalkVisitsReached(root, v);
    ReachedIsNoDir(root.entries, v);
    SkipReason(v, s);
    node := v.node;
  }

  lemma ReachedIsSkipped(root: Node, s: Skipped, node: Node)
    requires root.Dir? && WellFormed(root.entries)
    requires Reached([], root.entries, Visit(s.dir, s.name, node)) && LeftOut(s.dir, s.name, node, s.why)
    ensures s in SkipsOf(Walk(root))
  {
    var v := Visit(s.dir, s.name, node);
    WalkVisitsReached(root, v);
    ReachedIsNoDir(root.entries, v);
    SkipReason(v, s);
    SkipsAre(Walk(root), s);
  }

  lemma ReachedIsNoDir(es: seq<Entry>, v: Visit)
    requires Reached([], es, v)
    ensures !Descends(v.dir, Entry(v.name, v.node))
  {
  }

  // ---- The manifest ------------------------------------------------------------------------

  const MAX_TREE_FILES := 500_000

  /** `path` is one of the files, and `below` would be inside it. */
  predicate Clashes(files: seq<BlobFile>, below: Path) {
    exists i, pos :: 0 <= i < |files| && 0 <= pos < |below| && below[pos] == '/' && below[..pos] == files[i].path
  }

  /** `TreeManifest::validate` */
  predicate ManifestOk(files: seq<BlobFile>) {
    && |files| <= MAX_TREE_FILES
    && (forall i :: 0 <= i < |files| ==> ValidPath(files[i].path))
    && DistinctPaths(files)
    && (forall i :: 0 <= i < |files| ==> !Clashes(files, files[i].path))
  }

  lemma {:induction false} LeadsThrough(es: seq<Entry>, segs: seq<string>, end: seq<Entry>, k: nat)
    returns (mid: seq<Entry>, d: Entry)
    requires Leads(es, segs, end) && k < |segs|
    ensures Leads(es, segs[..k], mid) && d in mid && d.name == Name(segs[k], true) && d.node.Dir?
    decreases |segs|
  {
    var e :| e in es && e.name == Name(segs[0], true) && e.node.Dir? && Leads(e.node.entries, segs[1..], end);
    if k == 0 {
      assert segs[..0] == [];
      mid, d := es, e;
    } else {
      mid, d := LeadsThrough(e.node.entries, segs[1..], end, k - 1);
      assert segs[..k][1..] == segs[1..][..k - 1];
      assert Leads(es, segs[..k], mid);
    }
  }

  /** A path never leads to a file and on through it. */
  lemma FileHasNothingBelow(root: Node, a: seq<string>, node: Node, b: seq<string>, other: Node)
    requires root.Dir? && WellFormed(root.entries) && At(root, a, node) && node.File? && At(root, b, other)
    ensures !(|a| < |b| && b[..|a|] == a)
  {
    if |a| < |b| && b[..|a|] == a {
      var k := |a| - 1;
      var enda :| Leads(root.entries, a[..k], enda) && Entry(Name(a[k], true), node) in enda;
      var endb :| Leads(root.entries, b[..|b| - 1], endb) && Entry(Name(b[|b| - 1], true), other) in endb;
      var mid, e := LeadsThrough(root.entries, b[..|b| - 1], endb, k);
      assert b[..|b| - 1][..k] == a[..k] && b[..|b| - 1][k] == a[k] by {
        assert b[..|a|][..k] == b[..k];
        assert b[..|a|][k] == b[k];
      }
      LeadsUnique(root.entries, a[..k], enda, mid);
      LeadsFree(root.entries, a[..k], enda);
      SameName(enda, e, Entry(Name(a[k], true), node));
    }
  }

  lemma NoClash(h: Hash, root: Node, f: BlobFile)
    requires root.Dir? && WellFormed(root.entries) && f in FilesOf(h, Walk(root))
    ensures !Clashes(FilesOf(h, Walk(root)), f.path)
  {
    var files := FilesOf(h, Walk(root));
    if Clashes(files, f.path) {
      var i, pos :| 0 <= i < |files| && 0 <= pos < |f.path| && f.path[pos] == '/' && f.path[..pos] == files[i].path;
      var b, other := VisitedIsSent(h, root, f);
      var a, node := VisitedIsSent(h, root, files[i]);
      assert f.path == f.path[..pos] + ['/'] + f.path[pos + 1..];
      assert PathOf([]) == [];
      BelowMeansThrough(a, b, f.path[pos + 1..]);
      FileHasNothingBelow(root, a, node, b, other);
    }
  }

  /** The files of a scan always make a valid manifest, unless there are too many of them. */
  lemma ScanMakesManifest(h: Hash, root: Node)
    requires root.Dir? && WellFormed(root.entries)
    ensures ManifestOk(FilesOf(h, Walk(root))) <==> |FilesOf(h, Walk(root))| <= MAX_TREE_FILES
  {
    var files := FilesOf(h, Walk(root));
    ScanPathsDistinct(h, root);
    forall i | 0 <= i < |files|
      ensures ValidPath(files[i].path) && !Clashes(files, files[i].path)
    {
      var segs, node := VisitedIsSent(h, root, files[i]);
      NoClash(h, root, files[i]);
    }
  }
}
