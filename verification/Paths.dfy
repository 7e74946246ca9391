/**
 Relative blob paths (crates/core/src/blob.rs). A `char` here stands for one byte of UTF-8: every
 character the rules look at is ASCII, and lengths are counted in bytes.
 */
module Paths {
  import opened Wrappers
  import opened Separated

  type Path = string

  const MAX_BLOB_PATH_BYTES := 4096
  const MAX_PATH_SEGMENT_BYTES := 255
  const SANDBOX_ROOT: Path := "."

  predicate ValidSegment(s: string) {
    s != [] && s != "." && s != ".." && |s| <= MAX_PATH_SEGMENT_BYTES
  }

  predicate Forbidden(c: char) {
    c == '\\' || c == ':' || c == '\0'
  }

  predicate Clean(s: string) {
    forall i :: 0 <= i < |s| ==> !Forbidden(s[i])
  }

  predicate ValidSegments(segs: seq<string>) {
    forall i :: 0 <= i < |segs| ==> ValidSegment(segs[i])
  }

  /** `validate_blob_path` */
  predicate ValidPath(path: Path) {
    && path != []
    && |path| <= MAX_BLOB_PATH_BYTES
    && path[0] != '/'
    && Clean(path)
    && ValidSegments(Split(path, '/'))
  }

  function JoinPath(dir: Path, name: string): Path {
    if dir == [] then name else dir + ['/'] + name
  }

  /** What the chain of names from a root stands for. */
  function PathOf(segs: seq<string>): Path {
    Join(segs, '/')
  }

  lemma PathOfAppend(segs: seq<string>, name: string)
    requires AllFree(segs, '/') && (segs == [] || ValidPath(PathOf(segs)))
    ensures PathOf(segs + [name]) == JoinPath(PathOf(segs), name)
  {
    if segs == [] {
      assert segs + [name] == [name];
    } else {
      JoinAppend(segs, name, '/');
    }
  }

  lemma PathOfInjective(a: seq<string>, b: seq<string>)
    requires a != [] && b != [] && AllFree(a, '/') && AllFree(b, '/') && PathOf(a) == PathOf(b)
    ensures a == b
  {
    SplitUndoesJoin(a, '/');
    SplitUndoesJoin(b, '/');
  }

  /** If a path is valid, so is the directory it is in. */
  lemma ParentIsValid(segs: seq<string>, name: string)
    requires segs != [] && AllFree(segs + [name], '/') && ValidPath(PathOf(segs + [name]))
    ensures ValidPath(PathOf(segs))
  {
    var all := segs + [name];
    var path := PathOf(all);
    JoinAppend(segs, name, '/');
    assert PathOf(segs) <= path;
    assert AllFree(segs, '/') by {
      forall i | 0 <= i < |segs| ensures Free(segs[i], '/') {
        assert all[i] == segs[i];
      }
    }
    SplitUndoesJoin(segs, '/');
    SplitUndoesJoin(all, '/');
    forall i | 0 <= i < |segs| ensures ValidSegment(segs[i]) {
      assert all[i] == segs[i];
    }
    FirstIsThere(segs);
    assert PathOf(segs)[0] == path[0];
  }

  lemma FirstIsThere(segs: seq<string>)
    requires segs != [] && segs[0] != []
    ensures PathOf(segs) != []
  {
  }

  /** Every directory on the way to a valid path has a valid path itself. */
  lemma {:induction false} PrefixIsValid(segs: seq<string>, k: nat)
    requires AllFree(segs, '/') && 0 < k <= |segs| && ValidPath(PathOf(segs))
    ensures ValidPath(PathOf(segs[..k]))
    decreases |segs|
  {
    var last := |segs| - 1;
    if k <= last {
      assert segs == segs[..last] + [segs[last]];
      ParentIsValid(segs[..last], segs[last]);
      PrefixIsValid(segs[..last], k);
      assert segs[..last][..k] == segs[..k];
    } else {
      assert segs[..k] == segs;
    }
  }

  /** A path below another one goes through it, name by name. */
  lemma BelowMeansThrough(a: seq<string>, b: seq<string>, rest: string)
    requires a != [] && b != [] && AllFree(a, '/') && AllFree(b, '/')
    requires PathOf(b) == PathOf(a) + ['/'] + rest
    ensures |a| < |b| && b[..|a|] == a
  {
    SplitUndoesJoin(a, '/');
    SplitUndoesJoin(b, '/');
    SplitConcat(PathOf(a), rest, '/');
  }

  // ---- Destinations ------------------------------------------------------------------------

  predicate KeptPart(part: string) {
    part != [] && part != "."
  }

  function KeptParts(parts: seq<string>): seq<string> {
    if parts == [] then [] else (if KeptPart(parts[0]) then [parts[0]] else []) + KeptParts(parts[1..])
  }

  datatype Destination = Destination(path: Path) | BadDestination

  /** `normalize_destination` */
  function NormalizeDestination(dest: string, isDir: bool): Destination {
    var parts := KeptParts(Split(dest, '/'));
    if parts == [] then (if isDir then Destination(SANDBOX_ROOT) else BadDestination)
    else if ValidPath(PathOf(parts)) then Destination(PathOf(parts))
    else BadDestination
  }

  lemma {:induction false} KeptPartsAre(parts: seq<string>)
    ensures forall i :: 0 <= i < |KeptParts(parts)| ==> KeptPart(KeptParts(parts)[i])
    ensures AllFree(parts, '/') ==> AllFree(KeptParts(parts), '/')
  {
    if parts != [] {
      KeptPartsAre(parts[1..]);
      if AllFree(parts, '/') {
        assert Free(parts[0], '/');
        assert AllFree(parts[1..], '/');
      }
    }
  }

  lemma {:induction false} KeptPartsOfKept(parts: seq<string>)
    requires forall i :: 0 <= i < |parts| ==> KeptPart(parts[i])
    ensures KeptParts(parts) == parts
  {
    if parts != [] {
      KeptPartsOfKept(parts[1..]);
    }
  }

  /** `kept` is what remains of `parts` without the empty ones and the dots, in order: part `at[i]` is the `i`-th kept. */
  ghost predicate Keeps(parts: seq<string>, kept: seq<string>, at: seq<nat>) {
    Increasing(at) && Picks(parts, kept, at) && Dropped(parts, at)
  }

  ghost predicate Increasing(at: seq<nat>) {
    forall i, j :: 0 <= i < j < |at| ==> at[i] < at[j]
  }

  ghost predicate Picks(parts: seq<string>, kept: seq<string>, at: seq<nat>) {
    |at| == |kept| && forall i :: 0 <= i < |at| ==> at[i] < |parts| && parts[at[i]] == kept[i] && kept[i] != "" && kept[i] != "."
  }

  ghost predicate Dropped(parts: seq<string>, at: seq<nat>) {
    forall k :: 0 <= k < |parts| && k !in at ==> parts[k] == "" || parts[k] == "."
  }

  function Raised(at: seq<nat>): (up: seq<nat>)
    ensures |up| == |at| && forall i :: 0 <= i < |at| ==> up[i] == at[i] + 1
  {
    seq(|at|, i requires 0 <= i < |at| => at[i] + 1)
  }

  lemma DroppedBelow(parts: seq<string>, at: seq<nat>, all: seq<nat>)
    requires parts != [] && Dropped(parts[1..], at) && (0 in all || parts[0] == "" || parts[0] == ".")
    requires forall k :: k in Raised(at) ==> k in all
    ensures Dropped(parts, all)
  {
    forall k | 0 <= k < |parts| && k !in all ensures parts[k] == "" || parts[k] == "." {
      if k > 0 {
        RaisedHas(at, k - 1);
        assert parts[k] == parts[1..][k - 1];
      }
    }
  }

  lemma KeepsDropped(parts: seq<string>, kept: seq<string>, at: seq<nat>)
    requires parts != [] && (parts[0] == "" || parts[0] == ".") && Keeps(parts[1..], kept, at)
    ensures Keeps(parts, kept, Raised(at))
  {
    DroppedBelow(parts, at, Raised(at));
  }

  lemma KeepsKept(parts: seq<string>, kept: seq<string>, at: seq<nat>)
    requires parts != [] && parts[0] != "" && parts[0] != "." && Keeps(parts[1..], kept, at)
    ensures Keeps(parts, [parts[0]] + kept, [0] + Raised(at))
  {
    DroppedBelow(parts, at, [0] + Raised(at));
    PicksKept(parts, kept, at);
    IncreasingKept(at);
  }

  lemma PicksKept(parts: seq<string>, kept: seq<string>, at: seq<nat>)
    requires parts != [] && parts[0] != "" && parts[0] != "." && Picks(parts[1..], kept, at)
    ensures Picks(parts, [parts[0]] + kept, [0] + Raised(at))
  {
  }

  lemma IncreasingKept(at: seq<nat>)
    requires Increasing(at)
    ensures Increasing([0] + Raised(at))
  {
  }

  lemma RaisedHas(at: seq<nat>, k: nat)
    ensures k in at ==> k + 1 in Raised(at)
  {
    if k in at {
      var i :| 0 <= i < |at| && at[i] == k;
      assert Raised(at)[i] == k + 1;
    }
  }

  lemma {:induction false} KeptPartsKeep(parts: seq<string>) returns (at: seq<nat>)
    ensures Keeps(parts, KeptParts(parts), at)
  {
    if parts == [] {
      at := [];
    } else {
      at := KeptPartsKeep(parts[1..]);
      if KeptPart(parts[0]) {
        KeepsKept(parts, KeptParts(parts[1..]), at);
        at := [0] + Raised(at);
      } else {
        KeepsDropped(parts, KeptParts(parts[1..]), at);
        at := Raised(at);
        assert [] + KeptParts(parts[1..]) == KeptParts(parts[1..]);
      }
    }
  }

  /**
   What a destination turns into: its segments other than "" and ".", joined; the root for a
   directory if none is left. It is refused exactly if none is left for a file, or if what is left is
   no valid path.
   */
  lemma NormalizeExactly(dest: string, isDir: bool) returns (kept: seq<string>, at: seq<nat>)
    ensures Keeps(Split(dest, '/'), kept, at)
    ensures NormalizeDestination(dest, isDir) ==
            if kept == [] then (if isDir then Destination(".") else BadDestination)
            else if ValidPath(Join(kept, '/')) then Destination(Join(kept, '/')) else BadDestination
  {
    kept := KeptParts(Split(dest, '/'));
    at := KeptPartsKeep(Split(dest, '/'));
  }

  /** Where following the names leads, from the names already followed; nowhere if it leaves the root. */
  function Followed(at: seq<string>, segs: seq<string>): Option<seq<string>>
    decreases segs
  {
    if segs == [] then Some(at)
    else if segs[0] == "" || segs[0] == "." then Followed(at, segs[1..])
    else if segs[0] == ".." then (if at == [] then None else Followed(at[..|at| - 1], segs[1..]))
    else Followed(at + [segs[0]], segs[1..])
  }

  lemma {:induction false} FollowedDown(at: seq<string>, segs: seq<string>)
    requires ValidSegments(segs)
    ensures Followed(at, segs) == Some(at + segs)
    decreases segs
  {
    if segs == [] {
      assert at + segs == at;
    } else {
      FollowedDown(at + [segs[0]], segs[1..]);
      assert at + [segs[0]] + segs[1..] == at + segs;
    }
  }

  /** Each name leads at most one directory further down, and only if it is a name of its own. */
  lemma {:induction false} FollowedLength(at: seq<string>, segs: seq<string>)
    requires Followed(at, segs).Some?
    ensures |Followed(at, segs).value| <= |at| + |segs|
    ensures |Followed(at, segs).value| == |at| + |segs| ==>
              forall i :: 0 <= i < |segs| ==> segs[i] != "" && segs[i] != "." && segs[i] != ".."
    decreases segs
  {
    if segs != [] {
      var next := if segs[0] == "" || segs[0] == "." then at else if segs[0] == ".." then at[..|at| - 1] else at + [segs[0]];
      FollowedLength(next, segs[1..]);
      if |Followed(at, segs).value| == |at| + |segs| {
        forall i | 0 <= i < |segs| ensures segs[i] != "" && segs[i] != "." && segs[i] != ".." {
          assert i > 0 ==> segs[i] == segs[1..][i - 1];
        }
      }
    }
  }

  /**
   A path is valid exactly if it leads straight down from the root, one directory per name and never
   back, with names and the whole of bounded length and without the characters other systems
   interpret.
   */
  lemma ValidPathExactlyIf(path: Path)
    ensures ValidPath(path) <==>
            && 0 < |path| <= 4096 && Followed([], Split(path, '/')) == Some(Split(path, '/'))
            && (forall i :: 0 <= i < |Split(path, '/')| ==> |Split(path, '/')[i]| <= 255)
            && '\\' !in path && ':' !in path && '\0' !in path
  {
    var segs := Split(path, '/');
    assert [] + segs == segs;
    if ValidSegments(segs) {
      FollowedDown([], segs);
    }
    if Followed([], segs) == Some(segs) {
      FollowedLength([], segs);
    }
    if path != [] && path[0] == '/' {
      assert segs[0] == "";
    }
    if Clean(path) {
      assert '\\' !in path && ':' !in path && '\0' !in path;
    }
  }

  /** A normalized destination is a valid path, or the root for a directory, and normal already. */
  lemma NormalIsCanonical(dest: string, isDir: bool)
    requires NormalizeDestination(dest, isDir).Destination?
    ensures var path := NormalizeDestination(dest, isDir).path;
            && (ValidPath(path) || (isDir && path == SANDBOX_ROOT))
            && NormalizeDestination(path, isDir) == Destination(path)
  {
    var parts := KeptParts(Split(dest, '/'));
    PiecesAreFree(dest, '/');
    KeptPartsAre(Split(dest, '/'));
    if parts == [] {
      assert Free(SANDBOX_ROOT, '/');
      SplitLast(SANDBOX_ROOT, '/');
      assert KeptParts([SANDBOX_ROOT]) == [];
    } else {
      SplitUndoesJoin(parts, '/');
      KeptPartsOfKept(parts);
    }
  }
}
