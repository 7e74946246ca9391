/**
 A local directory tree and the order in which `scan_directory` (crates/cli/src/blobs.rs) goes
 through it: a stack of directories, each read in one go.
 */
module Tree {
  import opened Paths

  type Bytes = seq<bv8>
  type BlobId = nat
  type Hash = Bytes -> BlobId

  /** A file name; `utf8` says whether it is text at all. */
  datatype Name = Name(bytes: string, utf8: bool)

  /**
   A file has the length and stamp its metadata shows when it is opened, and the data that reading
   it to the end yields, which may differ. `opens` is false where the system refuses to open or read
   it; `Unknown` is an entry whose type cannot be determined.
   */
  datatype Node =
    | File(len: nat, stamp: nat, data: Bytes, executable: bool, opens: bool)
    | Dir(entries: seq<Entry>, opens: bool)
    | Link
    | Special
    | Unknown

  datatype Entry = Entry(name: Name, node: Node)

  datatype BlobFile = BlobFile(path: Path, id: BlobId, size: nat, executable: bool)

  datatype Reason = NotUtf8 | BadPath | IsLink | NotRegular

  datatype Skipped = Skipped(dir: Path, name: Name, why: Reason)

  /** An entry the scan meets and does not descend into, and the relative path of its directory. */
  datatype Visit = Visit(dir: Path, name: Name, node: Node)

  /** A directory still to be read. */
  datatype Frame = Frame(dir: Path, entries: seq<Entry>, opens: bool)

  predicate PathOk(dir: Path, name: Name) {
    name.utf8 && ValidPath(JoinPath(dir, name.bytes))
  }

  predicate Descends(dir: Path, e: Entry) {
    PathOk(dir, e.name) && e.node.Dir?
  }

  predicate Sends(v: Visit) {
    PathOk(v.dir, v.name) && v.node.File?
  }

  /** The entry makes the whole scan fail. */
  predicate Fault(v: Visit) {
    PathOk(v.dir, v.name) && (v.node.Unknown? || (v.node.File? && !v.node.opens))
  }

  function FileOf(h: Hash, v: Visit): BlobFile
    requires Sends(v)
  {
    BlobFile(JoinPath(v.dir, v.name.bytes), h(v.node.data), |v.node.data|, v.node.executable)
  }

  function SkipOf(v: Visit): Skipped {
    Skipped(v.dir, v.name,
            if !v.name.utf8 then NotUtf8
            else if !PathOk(v.dir, v.name) then BadPath
            else if v.node.Link? then IsLink else NotRegular)
  }

  function FilesOf(h: Hash, visits: seq<Visit>): seq<BlobFile> {
    if visits == [] then []
    else
      var last := visits[|visits| - 1];
      FilesOf(h, visits[..|visits| - 1]) + if Sends(last) then [FileOf(h, last)] else []
  }

  function SkipsOf(visits: seq<Visit>): seq<Skipped> {
    if visits == [] then []
    else
      var last := visits[|visits| - 1];
      SkipsOf(visits[..|visits| - 1]) + if Sends(last) then [] else [SkipOf(last)]
  }

  function TotalSize(files: seq<BlobFile>): nat {
    if files == [] then 0 else TotalSize(files[..|files| - 1]) + files[|files| - 1].size
  }

  // ---- The order of the traversal ----------------------------------------------------------

  function NowOf(dir: Path, e: Entry): seq<Visit> {
    if Descends(dir, e) then [] else [Visit(dir, e.name, e.node)]
  }

  function LaterOf(dir: Path, e: Entry): seq<Frame> {
    if Descends(dir, e) then [Frame(JoinPath(dir, e.name.bytes), e.node.entries, e.node.opens)] else []
  }

  /** The entries of one directory that are not descended into, in order. */
  function Now(dir: Path, es: seq<Entry>): seq<Visit> {
    if es == [] then [] else Now(dir, es[..|es| - 1]) + NowOf(dir, es[|es| - 1])
  }

  /** The subdirectories of one directory that are pushed, in order. */
  function Later(dir: Path, es: seq<Entry>): seq<Frame> {
    if es == [] then [] else Later(dir, es[..|es| - 1]) + LaterOf(dir, es[|es| - 1])
  }

  function EntryNodes(e: Entry): nat
    decreases e
  {
    if e.node.Dir? then 1 + Nodes(e.node.entries) else 0
  }

  function Nodes(es: seq<Entry>): nat
    decreases es
  {
    if es == [] then 0 else Nodes(es[..|es| - 1]) + EntryNodes(es[|es| - 1])
  }

  function StackSize(stack: seq<Frame>): nat {
    if stack == [] then 0 else StackSize(stack[..|stack| - 1]) + 1 + Nodes(stack[|stack| - 1].entries)
  }

  lemma {:induction false} StackSizeConcat(a: seq<Frame>, b: seq<Frame>)
    ensures StackSize(a + b) == StackSize(a) + StackSize(b)
  {
    if b == [] {
      assert a + b == a;
    } else {
      StackSizeConcat(a, b[..|b| - 1]);
      assert (a + b)[..|a + b| - 1] == a + b[..|b| - 1];
    }
  }

  lemma {:induction false} LaterIsSmall(dir: Path, es: seq<Entry>)
    ensures StackSize(Later(dir, es)) <= Nodes(es)
  {
    if es != [] {
      var last := es[|es| - 1];
      var front := es[..|es| - 1];
      LaterIsSmall(dir, front);
      if Descends(dir, last) {
        var f := Frame(JoinPath(dir, last.name.bytes), last.node.entries, last.node.opens);
        StackSizeConcat(Later(dir, front), [f]);
        assert [f][..0] == [];
        assert StackSize([f]) == EntryNodes(last);
      } else {
        assert Later(dir, es) == Later(dir, front);
      }
    }
  }

  lemma PopShrinks(stack: seq<Frame>)
    requires stack != []
    ensures StackSize(Popped(stack)) < StackSize(stack)
  {
    var top := stack[|stack| - 1];
    StackSizeConcat(stack[..|stack| - 1], Later(top.dir, top.entries));
    LaterIsSmall(top.dir, top.entries);
  }

  /** The stack once its top directory has been read. */
  function Popped(stack: seq<Frame>): seq<Frame>
    requires stack != []
  {
    stack[..|stack| - 1] + Later(stack[|stack| - 1].dir, stack[|stack| - 1].entries)
  }

  /** Everything still to be visited, in order. */
  function Order(stack: seq<Frame>): seq<Visit>
    decreases StackSize(stack)
  {
    if stack == [] then []
    else
      PopShrinks(stack);
      Now(stack[|stack| - 1].dir, stack[|stack| - 1].entries) + Order(Popped(stack))
  }

  /** Every directory on the way can be read. */
  predicate Readable(stack: seq<Frame>)
    decreases StackSize(stack)
  {
    stack == [] || (
      PopShrinks(stack);
      stack[|stack| - 1].opens && Readable(Popped(stack)))
  }

  function RootFrame(root: Node): Frame
    requires root.Dir?
  {
    Frame([], root.entries, root.opens)
  }

  function Walk(root: Node): seq<Visit>
    requires root.Dir?
  {
    Order([RootFrame(root)])
  }

  // ---- The same entries, by recursion over the tree ----------------------------------------

  ghost function EntryVisits(dir: Path, e: Entry): multiset<Visit>
    decreases e
  {
    if Descends(dir, e) then TreeVisits(JoinPath(dir, e.name.bytes), e.node.entries)
    else multiset{Visit(dir, e.name, e.node)}
  }

  ghost function TreeVisits(dir: Path, es: seq<Entry>): multiset<Visit>
    decreases es
  {
    if es == [] then multiset{}
    else TreeVisits(dir, es[..|es| - 1]) + EntryVisits(dir, es[|es| - 1])
  }

  ghost function StackVisits(stack: seq<Frame>): multiset<Visit> {
    if stack == [] then multiset{}
    else StackVisits(stack[..|stack| - 1]) + TreeVisits(stack[|stack| - 1].dir, stack[|stack| - 1].entries)
  }

  lemma {:induction false} StackVisitsConcat(a: seq<Frame>, b: seq<Frame>)
    ensures StackVisits(a + b) == StackVisits(a) + StackVisits(b)
  {
    if b == [] {
      assert a + b == a;
    } else {
      var front, top := b[..|b| - 1], b[|b| - 1];
      StackVisitsConcat(a, front);
      assert (a + b)[..|a + b| - 1] == a + front;
      Regroup(StackVisits(a), StackVisits(front), TreeVisits(top.dir, top.entries));
    }
  }

  lemma OneFrame(f: Frame)
    ensures StackVisits([f]) == TreeVisits(f.dir, f.entries)
  {
    assert [f][..0] == [];
  }

  lemma {:induction false} NowAndLater(dir: Path, es: seq<Entry>)
    ensures multiset(Now(dir, es)) + StackVisits(Later(dir, es)) == TreeVisits(dir, es)
  {
    if es != [] {
      var last := es[|es| - 1];
      var front := es[..|es| - 1];
      var now, later := Now(dir, front), Later(dir, front);
      NowAndLater(dir, front);
      if Descends(dir, last) {
        var f := Frame(JoinPath(dir, last.name.bytes), last.node.entries, last.node.opens);
        assert Now(dir, es) == now && Later(dir, es) == later + [f];
        StackVisitsConcat(later, [f]);
        OneFrame(f);
        Regroup(multiset(now), StackVisits(later), EntryVisits(dir, last));
      } else {
        var v := Visit(dir, last.name, last.node);
        assert Now(dir, es) == now + [v] && Later(dir, es) == later;
        assert multiset(now + [v]) == multiset(now) + multiset{v};
        Regroup(multiset(now), StackVisits(later), multiset{v});
      }
    }
  }

  lemma Regroup(a: multiset<Visit>, b: multiset<Visit>, c: multiset<Visit>)
    ensures a + (b + c) == (a + b) + c
    ensures (a + c) + b == (a + b) + c
  {
  }

  /** The stack visits every entry of the recursion, as often as the recursion does. */
  lemma {:induction false} OrderVisitsTree(stack: seq<Frame>)
    ensures multiset(Order(stack)) == StackVisits(stack)
    decreases StackSize(stack)
  {
    if stack != [] {
      PopShrinks(stack);
      var top := stack[|stack| - 1];
      OrderVisitsTree(Popped(stack));
      StackVisitsConcat(stack[..|stack| - 1], Later(top.dir, top.entries));
      NowAndLater(top.dir, top.entries);
    }
  }

  // ---- When every directory can be read ----------------------------------------------------

  /** Every directory gone into from here opens. */
  predicate OpenBelow(dir: Path, es: seq<Entry>)
    decreases es
  {
    forall i :: 0 <= i < |es| ==> OpenEntry(dir, es[i])
  }

  predicate OpenEntry(dir: Path, e: Entry)
    decreases e
  {
    PathOk(dir, e.name) && e.node.Dir? ==> e.node.opens && OpenBelow(JoinPath(dir, e.name.bytes), e.node.entries)
  }

  predicate Opens(f: Frame) {
    f.opens && OpenBelow(f.dir, f.entries)
  }

  predicate AllOpen(stack: seq<Frame>) {
    forall i :: 0 <= i < |stack| ==> Opens(stack[i])
  }

  lemma AllOpenConcat(a: seq<Frame>, b: seq<Frame>)
    ensures AllOpen(a + b) <==> AllOpen(a) && AllOpen(b)
  {
    if AllOpen(a + b) {
      forall i | 0 <= i < |a| ensures Opens(a[i]) {
        assert (a + b)[i] == a[i];
      }
      forall i | 0 <= i < |b| ensures Opens(b[i]) {
        assert (a + b)[|a| + i] == b[i];
      }
    }
  }

  lemma OpenOneMore(dir: Path, front: seq<Entry>, e: Entry)
    ensures OpenBelow(dir, front + [e]) <==> OpenBelow(dir, front) && OpenEntry(dir, e)
  {
    var es := front + [e];
    assert es[|front|] == e;
    if OpenBelow(dir, es) {
      forall i | 0 <= i < |front| ensures OpenEntry(dir, front[i]) {
        assert es[i] == front[i];
      }
    }
  }

  lemma LaterOfOpen(dir: Path, e: Entry)
    ensures AllOpen(LaterOf(dir, e)) <==> OpenEntry(dir, e)
  {
    if Descends(dir, e) {
      var f := Frame(JoinPath(dir, e.name.bytes), e.node.entries, e.node.opens);
      assert LaterOf(dir, e) == [f] && [f][0] == f;
    }
  }

  lemma {:induction false} LaterOpen(dir: Path, es: seq<Entry>)
    ensures AllOpen(Later(dir, es)) <==> OpenBelow(dir, es)
  {
    if es != [] {
      var front, last := es[..|es| - 1], es[|es| - 1];
      LaterOpen(dir, front);
      assert es == front + [last];
      OpenOneMore(dir, front, last);
      LaterOfOpen(dir, last);
      AllOpenConcat(Later(dir, front), LaterOf(dir, last));
    }
  }

  /** The traversal finds every directory readable exactly if every directory it goes into opens. */
  lemma {:induction false} ReadableExactlyIf(stack: seq<Frame>)
    ensures Readable(stack) <==> AllOpen(stack)
    decreases StackSize(stack)
  {
    if stack != [] {
      PopShrinks(stack);
      var top, below := stack[|stack| - 1], stack[..|stack| - 1];
      ReadableExactlyIf(Popped(stack));
      LaterOpen(top.dir, top.entries);
      AllOpenConcat(below, Later(top.dir, top.entries));
      assert stack == below + [top];
      AllOpenConcat(below, [top]);
      assert AllOpen([top]) <==> Opens(top) by {
        assert [top][0] == top;
      }
    }
  }
}
