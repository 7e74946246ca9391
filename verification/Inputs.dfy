/**
 The client's `PreparedInputs` (crates/cli/src/blobs.rs): hashing files and directories into task
 inputs under limits on their number and total size.
 */
module Inputs {
  import opened Wrappers
  import opened Paths
  import opened Tree

  datatype Result<T> = Ok(value: T) | Err

  datatype Limits = Limits(maxFiles: nat, maxBytes: nat)

  datatype LocalPath = LocalPath(root: string, rel: Path)

  datatype Fingerprint = Fingerprint(len: nat, stamp: nat, nofollow: bool)

  datatype Source = OnDisk(path: LocalPath, fingerprint: Fingerprint) | InMemory(bytes: Bytes)

  datatype LocalBlob = LocalBlob(size: nat, source: Source)

  datatype TaskInput =
    | FileInput(dest: Path, id: BlobId, size: nat, executable: bool)
    | TreeInput(dest: Path, id: BlobId, size: nat)

  datatype Added = Added(id: BlobId, size: nat, executable: bool)

  /**
   The canonical encoding of a manifest, as a function of the files it lists: the list is sorted by
   path and no path occurs twice, so the files determine it.
   */
  type Encoding = multiset<BlobFile> -> Bytes

  // ---- Budgets -----------------------------------------------------------------------------

  predicate Within(files: nat, bytes: nat, limits: Option<Limits>) {
    limits.Some? ==> files <= limits.value.maxFiles && bytes <= limits.value.maxBytes
  }

  function Remaining(bytes: nat, limit: nat): nat {
    if bytes <= limit then limit - bytes else 0
  }

  /** Reading at most `n` bytes of what a file yields. */
  function Take(data: Bytes, n: nat): Bytes {
    if |data| <= n then data else data[..n]
  }

  predicate Refuses(files: nat, bytes: nat, node: Node, limits: Option<Limits>)
    requires node.File?
  {
    || !node.opens
    || (limits.Some? && (
          || files >= limits.value.maxFiles
          || node.len > Remaining(bytes, limits.value.maxBytes)
          || |node.data| > Remaining(bytes, limits.value.maxBytes)))
  }

  // ---- A scan, entry by entry --------------------------------------------------------------

  /** The part of `PreparedInputs` a scan adds to. */
  datatype Ledger = Ledger(files: nat, bytes: nat, skipped: seq<Skipped>, blobs: map<BlobId, LocalBlob>)

  function Keep(blobs: map<BlobId, LocalBlob>, id: BlobId, blob: LocalBlob): map<BlobId, LocalBlob> {
    if id in blobs then blobs else blobs[id := blob]
  }

  function AddedFile(h: Hash, l: Ledger, path: LocalPath, node: Node, nofollow: bool): Ledger
    requires node.File?
  {
    var blob := LocalBlob(|node.data|, OnDisk(path, Fingerprint(node.len, node.stamp, nofollow)));
    Ledger(l.files + 1, l.bytes + |node.data|, l.skipped, Keep(l.blobs, h(node.data), blob))
  }

  predicate Passes(l: Ledger, v: Visit, limits: Option<Limits>) {
    !Fault(v) && (Sends(v) ==> !Refuses(l.files, l.bytes, v.node, limits))
  }

  function Taken(h: Hash, local: string, l: Ledger, v: Visit): Ledger {
    if Sends(v) then AddedFile(h, l, LocalPath(local, JoinPath(v.dir, v.name.bytes)), v.node, true)
    else l.(skipped := l.skipped + [SkipOf(v)])
  }

  /** The state after the visits, or `None` once one of them makes the scan fail. */
  function Run(h: Hash, local: string, l: Ledger, visits: seq<Visit>, limits: Option<Limits>): Option<Ledger> {
    if visits == [] then Some(l)
    else
      var m := Run(h, local, l, visits[..|visits| - 1], limits);
      var v := visits[|visits| - 1];
      if m.Some? && Passes(m.value, v, limits) then Some(Taken(h, local, m.value, v)) else None
  }

  lemma RunOneMore(h: Hash, local: string, l: Ledger, visits: seq<Visit>, v: Visit, limits: Option<Limits>)
    ensures var m := Run(h, local, l, visits, limits);
            Run(h, local, l, visits + [v], limits) ==
            if m.Some? && Passes(m.value, v, limits) then Some(Taken(h, local, m.value, v)) else None
  {
    assert (visits + [v])[..|visits|] == visits;
  }

  lemma {:induction false} RunPrefix(h: Hash, local: string, l: Ledger, a: seq<Visit>, b: seq<Visit>, limits: Option<Limits>)
    requires Run(h, local, l, a, limits).None?
    ensures Run(h, local, l, a + b, limits).None?
  {
    if b == [] {
      assert a + b == a;
    } else {
      assert (a + b)[..|a + b| - 1] == a + b[..|b| - 1];
      RunPrefix(h, local, l, a, b[..|b| - 1], limits);
    }
  }

  lemma NowOneMore(dir: Path, es: seq<Entry>, k: nat)
    requires k < |es|
    ensures Now(dir, es[..k + 1]) == Now(dir, es[..k]) + NowOf(dir, es[k])
    ensures Later(dir, es[..k + 1]) == Later(dir, es[..k]) + LaterOf(dir, es[k])
  {
    assert es[..k + 1][..k] == es[..k];
  }

  /** What reading the entries seen so far has done. */
  ghost predicate HasRead(h: Hash, local: string, start: Ledger, l: Ledger, visits: seq<Visit>, dir: Path, seen: seq<Entry>,
                          sent: seq<BlobFile>, pushed: seq<Frame>, limits: Option<Limits>) {
    && Run(h, local, start, visits + Now(dir, seen), limits) == Some(l)
    && sent == FilesOf(h, Now(dir, seen)) && pushed == Later(dir, seen)
  }

  lemma {:induction false} NowSplits(dir: Path, es: seq<Entry>, k: nat)
    requires k <= |es|
    ensures Now(dir, es[..k]) <= Now(dir, es)
  {
    if k < |es| {
      var front := es[..|es| - 1];
      NowSplits(dir, front, k);
      assert front[..k] == es[..k];
    } else {
      assert es[..k] == es;
    }
  }

  /** A failure part of the way through a directory is a failure of the directory. */
  lemma FailsEarly(h: Hash, local: string, l: Ledger, visits: seq<Visit>, dir: Path, es: seq<Entry>, k: nat, limits: Option<Limits>)
    requires k <= |es| && Run(h, local, l, visits + Now(dir, es[..k]), limits).None?
    ensures Run(h, local, l, visits + Now(dir, es), limits).None?
  {
    NowSplits(dir, es, k);
    var some, all := Now(dir, es[..k]), Now(dir, es);
    Reassociate(visits, some, all);
    RunPrefix(h, local, l, visits + some, all[|some|..], limits);
  }

  lemma Reassociate(a: seq<Visit>, b: seq<Visit>, c: seq<Visit>)
    requires b <= c
    ensures (a + b) + c[|b|..] == a + c
  {
  }

  /** One more entry of a directory that is not gone into. */
  lemma RunEntry(h: Hash, local: string, l: Ledger, visits: seq<Visit>, now: seq<Visit>, v: Visit, limits: Option<Limits>)
    ensures var m := Run(h, local, l, visits + now, limits);
            Run(h, local, l, visits + (now + [v]), limits) ==
            if m.Some? && Passes(m.value, v, limits) then Some(Taken(h, local, m.value, v)) else None
    ensures FilesOf(h, now + [v]) == FilesOf(h, now) + if Sends(v) then [FileOf(h, v)] else []
  {
    RunOneMore(h, local, l, visits + now, v, limits);
    assert visits + (now + [v]) == (visits + now) + [v];
    assert (now + [v])[..|now|] == now;
  }

  lemma OrderStep(stack: seq<Frame>, visits: seq<Visit>)
    requires stack != []
    ensures var top := stack[|stack| - 1];
            && (visits + Now(top.dir, top.entries)) + Order(Popped(stack)) == visits + Order(stack)
            && (Readable(stack) <==> top.opens && Readable(Popped(stack)))
  {
    var top := stack[|stack| - 1];
    var now, rest := Now(top.dir, top.entries), Order(Popped(stack));
    OrderUnfolds(stack);
    Associate(visits, now, rest);
  }

  lemma OrderUnfolds(stack: seq<Frame>)
    requires stack != []
    ensures var top := stack[|stack| - 1];
            Order(stack) == Now(top.dir, top.entries) + Order(Popped(stack))
  {
  }

  lemma Associate(a: seq<Visit>, b: seq<Visit>, c: seq<Visit>)
    ensures (a + b) + c == a + (b + c)
  {
  }

  class PreparedInputs {
    const hash: Hash
    const encode: Encoding
    var inputs: seq<TaskInput>
    var blobs: map<BlobId, LocalBlob>
    var files: nat
    var bytes: nat
    var skipped: seq<Skipped>

    function View(): Ledger
      reads this
    {
      Ledger(files, bytes, skipped, blobs)
    }

    constructor (hash: Hash, encode: Encoding)
      ensures this.hash == hash && this.encode == encode
      ensures inputs == [] && View() == Ledger(0, 0, [], map[])
    {
      this.hash, this.encode := hash, encode;
      inputs, blobs, files, bytes, skipped := [], map[], 0, 0, [];
    }

    /** Either the file is counted and indexed whole, or nothing changes. */
    method AddFile(path: LocalPath, node: Node, limits: Option<Limits>, nofollow: bool) returns (r: Result<Added>)
      requires node.File?
      modifies this
      ensures inputs == old(inputs)
      ensures r.Err? <==> Refuses(old(files), old(bytes), node, limits)
      ensures r.Err? ==> View() == old(View())
      ensures r.Ok? ==> r.value == Added(hash(node.data), |node.data|, node.executable)
      ensures r.Ok? ==> View() == AddedFile(hash, old(View()), path, node, nofollow)
      ensures r.Ok? ==> files == old(files) + 1 && bytes == old(bytes) + |node.data| && skipped == old(skipped)
      ensures r.Ok? ==> blobs.Keys == old(blobs).Keys + {hash(node.data)} && forall id :: id in old(blobs) ==> blobs[id] == old(blobs)[id]
      ensures Within(old(files), old(bytes), limits) ==>
                (r.Ok? <==> && node.opens
                            && Within(old(files) + 1, old(bytes) + node.len, limits)
                            && Within(old(files) + 1, old(bytes) + |node.data|, limits))
      ensures Within(old(files), old(bytes), limits) ==> Within(files, bytes, limits)
    {
      if limits.Some? && files >= limits.value.maxFiles {
        return Err;
      }
      if !node.opens {
        return Err;
      }
      var content := node.data;
      if limits.Some? {
        var remaining := Remaining(bytes, limits.value.maxBytes);
        if node.len > remaining {
          return Err;
        }
        content := Take(node.data, remaining + 1);
        if |content| > remaining {
          return Err;
        }
      }
      var id := hash(content);
      files := files + 1;
      bytes := bytes + |content|;
      blobs := Keep(blobs, id, LocalBlob(|content|, OnDisk(path, Fingerprint(node.len, node.stamp, nofollow))));
      return Ok(Added(id, |content|, node.executable));
    }

    /** One entry that is not a directory to go into. */
    method TakeEntry(local: string, v: Visit, limits: Option<Limits>) returns (ok: bool, sent: seq<BlobFile>)
      requires !Descends(v.dir, Entry(v.name, v.node))
      modifies this
      ensures inputs == old(inputs) && (Within(old(files), old(bytes), limits) ==> Within(files, bytes, limits))
      ensures ok <==> Passes(old(View()), v, limits)
      ensures ok ==> View() == Taken(hash, local, old(View()), v)
      ensures ok ==> sent == if Sends(v) then [FileOf(hash, v)] else []
    {
      if !v.name.utf8 || !PathOk(v.dir, v.name) {
        skipped := skipped + [SkipOf(v)];
        return true, [];
      }
      if v.node.Unknown? {
        return false, [];
      }
      if v.node.File? {
        var rel := JoinPath(v.dir, v.name.bytes);
        var r := AddFile(LocalPath(local, rel), v.node, limits, true);
        if r.Err? {
          return false, [];
        }
        return true, [BlobFile(rel, r.value.id, r.value.size, r.value.executable)];
      }
      skipped := skipped + [SkipOf(v)];
      return true, [];
    }

    /** One entry of a directory of which `now` has been visited already. */
    method ReadEntry(local: string, dir: Path, e: Entry, limits: Option<Limits>,
                     ghost start: Ledger, ghost visits: seq<Visit>, ghost now: seq<Visit>)
      returns (ok: bool, sent: seq<BlobFile>, pushed: seq<Frame>)
      requires Run(hash, local, start, visits + now, limits) == Some(View())
      modifies this
      ensures inputs == old(inputs) && (Within(old(files), old(bytes), limits) ==> Within(files, bytes, limits))
      ensures var after := Run(hash, local, start, visits + (now + NowOf(dir, e)), limits);
              (ok <==> after.Some?) && (ok ==> after == Some(View()))
      ensures ok ==> FilesOf(hash, now + NowOf(dir, e)) == FilesOf(hash, now) + sent && pushed == LaterOf(dir, e)
    {
      if Descends(dir, e) {
        assert now + [] == now;
        return true, [], [Frame(JoinPath(dir, e.name.bytes), e.node.entries, e.node.opens)];
      }
      var v := Visit(dir, e.name, e.node);
      RunEntry(hash, local, start, visits, now, v, limits);
      ok, sent := TakeEntry(local, v, limits);
      pushed := [];
    }

    /** Reads one directory: its files are sent, its odd entries skipped, its subdirectories pushed. */
    method ReadDirectory(local: string, top: Frame, limits: Option<Limits>, ghost start: Ledger, ghost visits: seq<Visit>)
      returns (ok: bool, sent: seq<BlobFile>, pushed: seq<Frame>)
      requires Run(hash, local, start, visits, limits) == Some(View())
      modifies this
      ensures inputs == old(inputs) && (Within(old(files), old(bytes), limits) ==> Within(files, bytes, limits))
      ensures var after := Run(hash, local, start, visits + Now(top.dir, top.entries), limits);
              (ok <==> after.Some?) && (ok ==> after == Some(View()))
      ensures ok ==> sent == FilesOf(hash, Now(top.dir, top.entries)) && pushed == Later(top.dir, top.entries)
    {
      var es := top.entries;
      ok, sent, pushed := true, [], [];
      assert es[..0] == [] && visits + [] == visits;
      for i := 0 to |es|
        invariant inputs == old(inputs) && (Within(old(files), old(bytes), limits) ==> Within(files, bytes, limits))
        invariant ok && HasRead(hash, local, start, View(), visits, top.dir, es[..i], sent, pushed, limits)
      {
        NowOneMore(top.dir, es, i);
        var one, frames;
        ok, one, frames := ReadEntry(local, top.dir, es[i], limits, start, visits, Now(top.dir, es[..i]));
        if !ok {
          FailsEarly(hash, local, start, visits, top.dir, es, i + 1, limits);
          return;
        }
        sent, pushed := sent + one, pushed + frames;
      }
      assert es[..|es|] == es;
    }

    /** `scan_directory`: a stack of directories, last pushed first read. */
    method ScanDirectory(local: string, root: Node, limits: Option<Limits>) returns (r: Result<seq<BlobFile>>)
      requires root.Dir?
      modifies this
      ensures inputs == old(inputs) && (Within(old(files), old(bytes), limits) ==> Within(files, bytes, limits))
      ensures var after := Run(hash, local, old(View()), Walk(root), limits);
              && (r.Ok? <==> Readable([RootFrame(root)]) && after.Some?)
              && (r.Ok? ==> after == Some(View()) && r.value == FilesOf(hash, Walk(root)))
    {
      ghost var start := View();
      ghost var visits: seq<Visit> := [];
      var sent: seq<BlobFile> := [];
      var stack := [RootFrame(root)];
      while stack != []
        invariant inputs == old(inputs) && (Within(old(files), old(bytes), limits) ==> Within(files, bytes, limits))
        invariant visits + Order(stack) == Walk(root)
        invariant Readable(stack) <==> Readable([RootFrame(root)])
        invariant Run(hash, local, start, visits, limits) == Some(View()) && sent == FilesOf(hash, visits)
        decreases StackSize(stack)
      {
        var top := stack[|stack| - 1];
        if !top.opens {
          return Err;
        }
        PopShrinks(stack);
        OrderStep(stack, visits);
        var ok, more, pushed := ReadDirectory(local, top, limits, start, visits);
        ghost var now := Now(top.dir, top.entries);
        if !ok {
          RunPrefix(hash, local, start, visits + now, Order(Popped(stack)), limits);
          return Err;
        }
        FilesConcat(hash, visits, now);
        visits, sent, stack := visits + now, sent + more, stack[..|stack| - 1] + pushed;
      }
      assert visits == Walk(root);
      return Ok(sent);
    }
  }

  lemma {:induction false} FilesConcat(h: Hash, a: seq<Visit>, b: seq<Visit>)
    ensures FilesOf(h, a + b) == FilesOf(h, a) + FilesOf(h, b)
  {
    if b == [] {
      assert a + b == a;
    } else {
      FilesConcat(h, a, b[..|b| - 1]);
      assert (a + b)[..|a + b| - 1] == a + b[..|b| - 1];
    }
  }
}
