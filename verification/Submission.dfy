/** Scanning inputs and uploading them, end to end. */
module Submission {
  import opened Wrappers
  import opened Paths
  import opened Tree
  import opened Inputs
  import opened InputScan
  import opened Master
  import opened Upload

  /** The sources of all indexed blobs still yield what they are named after. */
  ghost predicate GoodIndex(h: Hash, disk: Disk, index: map<BlobId, LocalBlob>) {
    forall id :: id in index ==> Good(h, JobOf(disk, id, index[id]))
  }

  /** The files of an input are still on disk as they were when they were scanned. */
  ghost predicate Agrees(disk: Disk, spec: Spec, limits: Option<Limits>) {
    var node, place := if limits.Some? then spec.node else spec.followed, disk(LocalPath(spec.local, []));
    && (node.File? && limits.Some? ==> place.node == node)
    && (node.File? && limits.None? ==> place.followed == node)
    && (node.Dir? ==> forall v :: v in Walk(node) ==> AgreesAt(disk, spec.local, v))
  }

  ghost predicate AgreesAt(disk: Disk, local: string, v: Visit) {
    Sends(v) ==> disk(LocalPath(local, JoinPath(v.dir, v.name.bytes))).node == v.node
  }

  lemma AddedIsGood(h: Hash, disk: Disk, l: Ledger, path: LocalPath, node: Node, nofollow: bool)
    requires GoodIndex(h, disk, l.blobs) && node.File? && node.opens
    requires node == if nofollow then disk(path).node else disk(path).followed
    ensures GoodIndex(h, disk, AddedFile(h, l, path, node, nofollow).blobs)
  {
    assert node.data[..|node.data|] == node.data;
  }

  lemma {:induction false} RunIsGood(h: Hash, disk: Disk, local: string, l: Ledger, visits: seq<Visit>, limits: Option<Limits>)
    requires Run(h, local, l, visits, limits).Some? && GoodIndex(h, disk, l.blobs)
    requires forall v :: v in visits ==> AgreesAt(disk, local, v)
    ensures GoodIndex(h, disk, Run(h, local, l, visits, limits).value.blobs)
  {
    if visits != [] {
      var front, v := visits[..|visits| - 1], visits[|visits| - 1];
      RunIsGood(h, disk, local, l, front, limits);
      assert AgreesAt(disk, local, v);
      if Sends(v) {
        var m := Run(h, local, l, front, limits).value;
        AddedIsGood(h, disk, m, LocalPath(local, JoinPath(v.dir, v.name.bytes)), v.node, true);
      }
    }
  }

  lemma TreeIsGood(h: Hash, encode: Encoding, disk: Disk, s: State, scanned: Ledger, files: seq<BlobFile>, dest: Path)
    requires GoodIndex(h, disk, scanned.blobs)
    ensures GoodIndex(h, disk, AfterTree(h, encode, s, scanned, files, dest).ledger.blobs)
  {
    var encoded := encode(multiset(files));
    assert encoded[..|encoded|] == encoded;
  }

  lemma {:induction false} ScanIsGood(h: Hash, encode: Encoding, disk: Disk, specs: seq<Spec>, limits: Option<Limits>)
    requires TakenSpecs(h, encode, specs, limits).Some?
    requires forall i :: 0 <= i < |specs| ==> Agrees(disk, specs[i], limits)
    ensures GoodIndex(h, disk, TakenSpecs(h, encode, specs, limits).value.ledger.blobs)
  {
    if specs != [] {
      var front, last := specs[..|specs| - 1], specs[|specs| - 1];
      ScanIsGood(h, encode, disk, front, limits);
      var s := TakenSpecs(h, encode, front, limits).value;
      var node := Seen(last, limits);
      assert Agrees(disk, last, limits);
      if node.File? {
        AddedIsGood(h, disk, s.ledger, LocalPath(last.local, []), node, limits.Some?);
      } else if node.Dir? {
        RunIsGood(h, disk, last.local, s.ledger, Walk(node), limits);
        var scanned := Run(h, last.local, s.ledger, Walk(node), limits).value;
        TreeIsGood(h, encode, disk, s, scanned, Manifest(h, node), Target(last, true).path);
      }
    }
  }

  // ---- Links -------------------------------------------------------------------------------

  /** No indexed file is read through a link. */
  predicate NoneThroughLinks(index: map<BlobId, LocalBlob>) {
    forall id :: id in index && index[id].source.OnDisk? ==> index[id].source.fingerprint.nofollow
  }

  lemma {:induction false} RunReadsNoLinks(h: Hash, local: string, l: Ledger, visits: seq<Visit>, limits: Option<Limits>)
    requires Run(h, local, l, visits, limits).Some? && NoneThroughLinks(l.blobs)
    ensures NoneThroughLinks(Run(h, local, l, visits, limits).value.blobs)
  {
    if visits != [] {
      RunReadsNoLinks(h, local, l, visits[..|visits| - 1], limits);
    }
  }

  lemma {:induction false} LimitedScanReadsNoLinks(h: Hash, encode: Encoding, specs: seq<Spec>, limits: Option<Limits>)
    requires limits.Some? && TakenSpecs(h, encode, specs, limits).Some?
    ensures NoneThroughLinks(TakenSpecs(h, encode, specs, limits).value.ledger.blobs)
  {
    if specs != [] {
      var front, last := specs[..|specs| - 1], specs[|specs| - 1];
      LimitedScanReadsNoLinks(h, encode, front, limits);
      var s := TakenSpecs(h, encode, front, limits).value;
      if Seen(last, limits).Dir? {
        RunReadsNoLinks(h, last.local, s.ledger, Walk(Seen(last, limits)), limits);
      }
    }
  }

  /**
   After a scan under limits, the upload reads a file only if a regular file with the length and
   stamp seen by the scan is at its path itself, and never one a link leads to.
   */
  lemma UploadReadsNoLinks(h: Hash, encode: Encoding, specs: seq<Spec>, limits: Option<Limits>, disk: Disk, id: BlobId)
    requires limits.Some? && TakenSpecs(h, encode, specs, limits).Some?
    requires var index := TakenSpecs(h, encode, specs, limits).value.ledger.blobs;
             id in index && index[id].source.OnDisk? && JobOf(disk, id, index[id]).source.Some?
    ensures var source := TakenSpecs(h, encode, specs, limits).value.ledger.blobs[id].source;
            var node := disk(source.path).node;
            node.File? && node.len == source.fingerprint.len && node.stamp == source.fingerprint.stamp
  {
    LimitedScanReadsNoLinks(h, encode, specs, limits);
  }

  /**
   A submission whose upload succeeds leaves at the master every blob needed to rebuild every input,
   except what was evicted while it went on. If no request is refused and the files have not changed,
   it does succeed.
   */
  method Submit(m: Store, encode: Encoding, specs: seq<Spec>, limits: Option<Limits>, disk: Disk)
    returns (scanned: bool, r: Option<Report>)
    requires m.Valid()
    modifies m
    ensures m.Valid() && m.Holds() && (r.Some? ==> scanned)
    ensures scanned <==> var s := TakenSpecs(m.hash, encode, specs, limits); s.Some? && ValidInputs(s.value.inputs)
    ensures r.Some? ==> forall id :: id in AllNeeds(m.hash, encode, specs, limits) ==>
                                       Kept(m.blobs, m.script, id, old(m.time), m.time)
    ensures scanned && (forall i :: 0 <= i < |specs| ==> Agrees(disk, specs[i], limits)) ==>
      (Obliging(m.script, old(m.time), m.time) ==> r.Some?)
  {
    r := None;
    var p;
    p, scanned := ScanInputs(m.hash, encode, specs, limits);
    if !scanned {
      return;
    }
    ScanIsClosed(m.hash, encode, specs, limits);
    if forall i :: 0 <= i < |specs| ==> Agrees(disk, specs[i], limits) {
      ScanIsGood(m.hash, encode, disk, specs, limits);
    }
    ghost var sent;
    r, sent := UploadInputs(m, p.blobs, disk);
  }
}
