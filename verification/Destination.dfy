/**
 `prepare_destination` (crates/cli/src/blobs.rs): creating the directories an output file goes into,
 below a root other downloads are creating directories in at the same time.
 */
module Destination {
  import opened Wrappers
  import opened Separated
  import opened Paths

  /** The names leading from the root to an entry; the root itself is the empty list. */
  type Key = seq<string>

  datatype Kind = Directory | Symlink | RegularOrOther

  datatype Look = Found(kind: Kind) | NotFound | Denied

  datatype Creation = Created | AlreadyExists | Refused

  /** What happens before a system call: others create directories; and whether the call fails. */
  datatype Move = Move(dirs: set<Key>, refuses: bool)

  type Script = nat -> Move

  /** Nobody else creates anything. */
  ghost predicate Still(script: Script) {
    forall t: nat :: script(t).dirs == {}
  }

  /** No call fails for a reason of its own in this span. */
  ghost predicate Working(script: Script, from: nat, to: nat) {
    forall t: nat :: from <= t < to ==> !script(t).refuses
  }

  /** A look at `p` at time `t` is answered: it does not fail, and the directory can be looked into. */
  predicate Answered(script: Script, sealed: set<Key>, p: Key, t: nat)
    requires p != []
  {
    Parent(p) !in sealed && !script(t).refuses
  }

  function Parent(p: Key): Key
    requires p != []
  {
    p[..|p| - 1]
  }

  predicate IsDir(nodes: map<Key, Kind>, p: Key) {
    p in nodes && nodes[p] == Directory
  }

  /** Every entry is in a real directory. */
  ghost predicate Rooted(nodes: map<Key, Kind>) {
    forall p :: p in nodes && p != [] ==> IsDir(nodes, Parent(p))
  }

  /** Nothing is lost or replaced, and whatever is new is a directory. */
  ghost predicate OnlyDirsAdded(before: map<Key, Kind>, after: map<Key, Kind>) {
    && (forall p :: p in before ==> p in after && after[p] == before[p])
    && (forall p :: p in after && p !in before ==> after[p] == Directory)
  }

  function WithDirs(nodes: map<Key, Kind>, dirs: set<Key>): map<Key, Kind> {
    var new_ := set p | p in dirs && p != [] && p !in nodes && IsDir(nodes, Parent(p));
    map p | p in nodes.Keys + new_ :: if p in nodes then nodes[p] else Directory
  }

  class FileSystem {
    const script: Script
    /** Directories whose entries cannot be looked up. */
    const sealed: set<Key>
    var time: nat
    var nodes: map<Key, Kind>

    ghost predicate Valid()
      reads this
    {
      Rooted(nodes)
    }

    constructor (script: Script, sealed: set<Key>, nodes: map<Key, Kind>)
      requires Rooted(nodes)
      ensures Valid() && this.script == script && this.sealed == sealed && this.nodes == nodes && time == 0
    {
      this.script, this.sealed, this.nodes, time := script, sealed, nodes, 0;
    }

    method Others() returns (refuses: bool)
      requires Valid()
      modifies this
      ensures Valid() && OnlyDirsAdded(old(nodes), nodes) && time == old(time) + 1
      ensures refuses == script(old(time)).refuses
      ensures Still(script) ==> nodes == old(nodes)
    {
      var move := script(time);
      time := time + 1;
      nodes := WithDirs(nodes, move.dirs);
      refuses := move.refuses;
    }

    /** `symlink_metadata`: nothing on the way to the entry may be a link, and the call may fail. */
    method Metadata(p: Key) returns (look: Look)
      requires Valid() && p != [] && (|p| > 1 ==> IsDir(nodes, Parent(p)))
      modifies this
      ensures Valid() && OnlyDirsAdded(old(nodes), nodes) && time == old(time) + 1
      ensures look.Denied? <==> !Answered(script, sealed, p, old(time))
      ensures !look.Denied? ==> look == if p in nodes then Found(nodes[p]) else NotFound
      ensures Still(script) ==> nodes == old(nodes)
    {
      var refuses := Others();
      if refuses || Parent(p) in sealed {
        return Denied;
      }
      return if p in nodes then Found(nodes[p]) else NotFound;
    }

    /** `create_dir` */
    method CreateDir(p: Key) returns (r: Creation)
      requires Valid() && p != [] && (|p| > 1 ==> IsDir(nodes, Parent(p)))
      modifies this
      ensures Valid() && OnlyDirsAdded(old(nodes), nodes) && time == old(time) + 1
      ensures r.Created? ==> IsDir(nodes, p)
      ensures r.AlreadyExists? ==> p in nodes
      ensures Still(script) ==> nodes == if r.Created? then old(nodes)[p := Directory] else old(nodes)
      ensures Still(script) && !script(old(time)).refuses ==> (r.Created? <==> p !in old(nodes) && IsDir(old(nodes), Parent(p)))
    {
      var refuses := Others();
      if refuses || !IsDir(nodes, Parent(p)) {
        return Refused;
      }
      if p in nodes {
        return AlreadyExists;
      }
      nodes := nodes[p := Directory];
      return Created;
    }
  }

  /** All directories on the way to `p`, the root not counted, are real ones. */
  ghost predicate RealWay(nodes: map<Key, Kind>, p: Key) {
    forall k :: 0 < k < |p| ==> IsDir(nodes, p[..k])
  }

  /** One directory of the way: it is there, or it is made. */
  method EnsureDir(fs: FileSystem, p: Key) returns (ok: bool)
    requires fs.Valid() && p != [] && RealWay(fs.nodes, p)
    modifies fs
    ensures fs.Valid() && OnlyDirsAdded(old(fs.nodes), fs.nodes) && old(fs.time) < fs.time
    ensures ok ==> IsDir(fs.nodes, p) && Parent(p) !in fs.sealed
    ensures Still(fs.script) ==> fs.nodes == if ok then old(fs.nodes)[p := Directory] else old(fs.nodes)
    ensures Still(fs.script) && Working(fs.script, old(fs.time), fs.time) ==>
      (ok <==> Parent(p) !in fs.sealed && (if p in old(fs.nodes) then IsDir(old(fs.nodes), p) else IsDir(old(fs.nodes), Parent(p))))
  {
    while true
      invariant fs.Valid() && OnlyDirsAdded(old(fs.nodes), fs.nodes) && old(fs.time) <= fs.time
      invariant |p| > 1 ==> IsDir(fs.nodes, Parent(p))
      invariant Still(fs.script) ==> fs.nodes == old(fs.nodes)
      decreases if p in fs.nodes then 0 else 1
    {
      var look := fs.Metadata(p);
      match look {
        case Found(kind) =>
          return kind.Directory?;
        case Denied =>
          return false;
        case NotFound =>
          var r := fs.CreateDir(p);
          if r.Created? {
            return true;
          }
          if r.Refused? {
            return false;
          }
      }
    }
  }

  // ---- The whole way -----------------------------------------------------------------------

  /** The final component is neither a link nor a directory. */
  predicate PlainTarget(nodes: map<Key, Kind>, p: Key) {
    p in nodes ==> nodes[p] == RegularOrOther
  }

  /** The directories on the way, up to the one with `i` names, are there. */
  function WithWay(nodes: map<Key, Kind>, p: Key, i: nat): map<Key, Kind>
    requires i <= |p|
  {
    if i == 0 then nodes else WithWay(nodes, p, i - 1)[p[..i] := Directory]
  }

  lemma {:induction false} BeyondTheWay(nodes: map<Key, Kind>, p: Key, i: nat, q: Key)
    requires i <= |p| && i < |q|
    ensures q in WithWay(nodes, p, i) <==> q in nodes
    ensures q in nodes ==> WithWay(nodes, p, i)[q] == nodes[q]
  {
    if i > 0 {
      BeyondTheWay(nodes, p, i - 1, q);
    }
  }

  /** The way can be walked or made, and the last look, if it is answered, shows no link or directory. */
  ghost predicate CanPrepare(nodes: map<Key, Kind>, sealed: set<Key>, p: Key, answered: bool)
    requires p != []
  {
    && Walkable(nodes, sealed, p, |p| - 1)
    && (answered ==> PlainTarget(nodes, p))
  }

  ghost predicate Walkable(nodes: map<Key, Kind>, sealed: set<Key>, p: Key, n: nat)
    requires n <= |p|
  {
    && (n > 0 ==> IsDir(nodes, []))
    && forall k :: 0 < k <= n ==> Parent(p[..k]) !in sealed && (p[..k] in nodes ==> IsDir(nodes, p[..k]))
  }

  lemma OneStepFurther(nodes: map<Key, Kind>, sealed: set<Key>, p: Key, i: nat)
    requires i < |p| && Rooted(nodes) && Walkable(nodes, sealed, p, i)
    ensures var now := WithWay(nodes, p, i);
            var next := p[..i + 1];
            Walkable(nodes, sealed, p, i + 1) <==>
            Parent(next) !in sealed && if next in now then IsDir(now, next) else IsDir(now, Parent(next))
  {
    BeyondTheWay(nodes, p, i, p[..i + 1]);
    assert Parent(p[..i + 1]) == p[..i];
    assert p[..0] == [];
  }

  lemma NoWayAround(nodes: map<Key, Kind>, sealed: set<Key>, p: Key, i: nat, n: nat)
    requires i <= n <= |p|
    ensures Walkable(nodes, sealed, p, n) ==> Walkable(nodes, sealed, p, i)
  {
  }

  /** The directories on the way to `parts`, one after the other. */
  method MakeWay(fs: FileSystem, parts: Key) returns (ok: bool)
    requires fs.Valid() && parts != []
    modifies fs
    ensures fs.Valid() && OnlyDirsAdded(old(fs.nodes), fs.nodes) && old(fs.time) <= fs.time
    ensures ok ==> RealWay(fs.nodes, parts)
    ensures Still(fs.script) && Working(fs.script, old(fs.time), fs.time) ==>
      (ok <==> Walkable(old(fs.nodes), fs.sealed, parts, |parts| - 1))
    ensures Still(fs.script) && ok ==> fs.nodes == WithWay(old(fs.nodes), parts, |parts| - 1)
  {
    ghost var before := fs.nodes;
    for i := 0 to |parts| - 1
      invariant fs.Valid() && OnlyDirsAdded(before, fs.nodes) && old(fs.time) <= fs.time
      invariant RealWay(fs.nodes, parts[..i + 1])
      invariant Still(fs.script) ==> fs.nodes == WithWay(before, parts, i)
      invariant Still(fs.script) && Working(fs.script, old(fs.time), fs.time) ==> Walkable(before, fs.sealed, parts, i)
    {
      ghost var now := fs.nodes;
      NoWayAround(before, fs.sealed, parts, i + 1, |parts| - 1);
      if Walkable(before, fs.sealed, parts, i) {
        OneStepFurther(before, fs.sealed, parts, i);
      }
      ok := EnsureDir(fs, parts[..i + 1]);
      AddedTwice(before, now, fs.nodes);
      if !ok {
        return;
      }
      OneDirFurther(now, fs.nodes, parts, i + 1);
    }
    assert parts[..|parts|] == parts;
    ok := true;
  }

  lemma AddedTwice(a: map<Key, Kind>, b: map<Key, Kind>, c: map<Key, Kind>)
    requires OnlyDirsAdded(a, b) && OnlyDirsAdded(b, c)
    ensures OnlyDirsAdded(a, c)
  {
  }

  lemma OneDirFurther(before: map<Key, Kind>, after: map<Key, Kind>, p: Key, i: nat)
    requires i < |p| && RealWay(before, p[..i]) && OnlyDirsAdded(before, after) && IsDir(after, p[..i])
    ensures RealWay(after, p[..i + 1])
  {
    var way := p[..i + 1];
    forall k | 0 < k < |way| ensures IsDir(after, way[..k]) {
      assert way[..k] == p[..k];
      if k < i {
        assert p[..i][..k] == p[..k];
        assert IsDir(before, p[..i][..k]);
      }
    }
  }

  /** The last look: a link or a directory in the place of the file is refused, if the look is answered. */
  method CheckTarget(fs: FileSystem, parts: Key) returns (ok: bool)
    requires fs.Valid() && parts != [] && RealWay(fs.nodes, parts)
    modifies fs
    ensures fs.Valid() && OnlyDirsAdded(old(fs.nodes), fs.nodes) && fs.time == old(fs.time) + 1
    ensures ok <==> (Answered(fs.script, fs.sealed, parts, old(fs.time)) ==> PlainTarget(fs.nodes, parts))
    ensures Still(fs.script) ==> fs.nodes == old(fs.nodes)
  {
    assert |parts| > 1 ==> IsDir(fs.nodes, parts[..|parts| - 1]);
    var look := fs.Metadata(parts);
    ok := !(look.Found? && !look.kind.RegularOrOther?);
  }

  /** `last` is the time of the last look. */
  method PrepareDestination(fs: FileSystem, rel: Path) returns (r: Option<Key>, ghost last: nat)
    requires fs.Valid()
    modifies fs
    ensures fs.Valid() && OnlyDirsAdded(old(fs.nodes), fs.nodes) && old(fs.time) <= last
    ensures r.Some? ==> ValidPath(rel) && r.value == Split(rel, '/') && RealWay(fs.nodes, r.value)
    ensures r.Some? && Answered(fs.script, fs.sealed, r.value, last) ==> PlainTarget(fs.nodes, r.value)
    ensures Still(fs.script) && Working(fs.script, old(fs.time), last) ==>
      var parts := Split(rel, '/');
      (r.Some? <==> ValidPath(rel) && CanPrepare(old(fs.nodes), fs.sealed, parts, Answered(fs.script, fs.sealed, parts, last)))
    ensures Still(fs.script) && r.Some? ==> fs.nodes == WithWay(old(fs.nodes), r.value, |r.value| - 1)
  {
    last := fs.time;
    if !ValidPath(rel) {
      return None, last;
    }
    var parts := Split(rel, '/');
    var ok := MakeWay(fs, parts);
    last := fs.time;
    if !ok {
      return None, last;
    }
    BeyondTheWay(old(fs.nodes), parts, |parts| - 1, parts);
    ok := CheckTarget(fs, parts);
    if !ok {
      return None, last;
    }
    return Some(parts), last;
  }

  // ---- When the last look can be trusted ---------------------------------------------------

  /** A way of real directories with a link at its end. */
  function LinkAtEnd(p: Key): map<Key, Kind>
    requires p != []
  {
    WithWay(map[[] := Directory], p, |p| - 1)[p := Symlink]
  }

  lemma {:induction false} OnTheWay(p: Key, i: nat, q: Key)
    requires i <= |p|
    ensures var nodes := WithWay(map[[] := Directory], p, i);
            && (q in nodes <==> |q| <= i && q == p[..|q|])
            && (q in nodes ==> nodes[q] == Directory)
  {
    if i > 0 {
      OnTheWay(p, i - 1, q);
    }
  }

  lemma LinkAtEndIsPrepared(sealed: set<Key>, p: Key)
    requires p != [] && forall k :: 0 < k < |p| ==> Parent(p[..k]) !in sealed
    ensures Rooted(LinkAtEnd(p)) && CanPrepare(LinkAtEnd(p), sealed, p, false) && !PlainTarget(LinkAtEnd(p), p)
  {
    var nodes := LinkAtEnd(p);
    forall q | q in nodes && q != [] ensures IsDir(nodes, Parent(q)) {
      OnTheWay(p, |p| - 1, q);
      OnTheWay(p, |p| - 1, Parent(q));
      assert q == p[..|q|];
      assert Parent(q) == p[..|q| - 1];
    }
    forall k | 0 < k <= |p| - 1 ensures IsDir(nodes, p[..k]) {
      OnTheWay(p, |p| - 1, p[..k]);
    }
    OnTheWay(p, |p| - 1, []);
  }

  /**
   Where the way can be walked, the end is known to be no link or directory, whatever is there,
   exactly if the last look is answered: a last look that fails, for whatever reason, is taken for a
   free name.
   */
  lemma TargetIsPlainExactlyIf(sealed: set<Key>, p: Key, answered: bool)
    requires p != [] && forall k :: 0 < k < |p| ==> Parent(p[..k]) !in sealed
    ensures (forall nodes :: Rooted(nodes) && CanPrepare(nodes, sealed, p, answered) ==> PlainTarget(nodes, p)) <==> answered
  {
    if !answered {
      LinkAtEndIsPrepared(sealed, p);
    }
  }
}
