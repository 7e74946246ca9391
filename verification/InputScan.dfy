/** `scan_input_paths_inner` (crates/cli/src/blobs.rs): a list of files and directories into task inputs. */
module InputScan {
  import opened Wrappers
  import opened Paths
  import opened Tree
  import opened TreeProofs
  import opened ScanProofs
  import opened Inputs

  const MAX_TASK_INPUTS := 1024

  /** The destination a user gave, or the one derived from the local path where there is one. */
  datatype Dest = Given(text: string) | Derived(path: Option<Path>)

  /** An input to scan: what is at the local path itself, and what is there after following a link. */
  datatype Spec = Spec(local: string, dest: Dest, node: Node, followed: Node)

  datatype State = State(ledger: Ledger, inputs: seq<TaskInput>)

  function Seen(spec: Spec, limits: Option<Limits>): Node {
    if limits.Some? then spec.node else spec.followed
  }

  function Target(spec: Spec, isDir: bool): Destination {
    match spec.dest
    case Given(text) => NormalizeDestination(text, isDir)
    case Derived(None) => BadDestination
    case Derived(Some(path)) => Destination(path)
  }

  function Manifest(h: Hash, node: Node): seq<BlobFile>
    requires node.Dir?
  {
    FilesOf(h, Walk(node))
  }

  function AfterFile(h: Hash, s: State, spec: Spec, node: Node, dest: Path, nofollow: bool): State
    requires node.File?
  {
    State(AddedFile(h, s.ledger, LocalPath(spec.local, []), node, nofollow),
          s.inputs + [FileInput(dest, h(node.data), |node.data|, node.executable)])
  }

  function AfterTree(h: Hash, encode: Encoding, s: State, scanned: Ledger, files: seq<BlobFile>, dest: Path): State {
    var encoded := encode(multiset(files));
    var blob := LocalBlob(|encoded|, InMemory(encoded));
    State(scanned.(blobs := scanned.blobs[h(encoded) := blob]), s.inputs + [TreeInput(dest, h(encoded), |encoded|)])
  }

  /** One input added, or `None` if it makes the scan fail. */
  function TakenSpec(h: Hash, encode: Encoding, s: State, spec: Spec, limits: Option<Limits>): Option<State> {
    var node := Seen(spec, limits);
    var target := Target(spec, node.Dir?);
    if target.BadDestination? then None
    else if node.File? then
      if Refuses(s.ledger.files, s.ledger.bytes, node, limits) then None
      else Some(AfterFile(h, s, spec, node, target.path, limits.Some?))
    else if node.Dir? then
      var scanned := Run(h, spec.local, s.ledger, Walk(node), limits);
      if Readable([RootFrame(node)]) && scanned.Some? && ManifestOk(Manifest(h, node))
      then Some(AfterTree(h, encode, s, scanned.value, Manifest(h, node), target.path)) else None
    else None
  }

  const EMPTY: State := State(Ledger(0, 0, [], map[]), [])

  function TakenSpecs(h: Hash, encode: Encoding, specs: seq<Spec>, limits: Option<Limits>): Option<State> {
    if specs == [] then Some(EMPTY)
    else
      var s := TakenSpecs(h, encode, specs[..|specs| - 1], limits);
      if s.None? then None else TakenSpec(h, encode, s.value, specs[|specs| - 1], limits)
  }

  /** `validate_task_inputs` */
  predicate ValidInput(input: TaskInput) {
    (input.TreeInput? && input.dest == SANDBOX_ROOT) || ValidPath(input.dest)
  }

  predicate ValidInputs(inputs: seq<TaskInput>) {
    && |inputs| <= MAX_TASK_INPUTS
    && (forall i :: 0 <= i < |inputs| ==> ValidInput(inputs[i]))
    && (forall i, j :: 0 <= i < j < |inputs| ==> inputs[i].dest != inputs[j].dest)
  }

  // ---- What an input is to be --------------------------------------------------------------

  predicate GoesTo(dest: Dest, isDir: bool, path: Path) {
    match dest
    case Given(text) => NormalizeDestination(text, isDir) == Destination(path)
    case Derived(derived) => derived == Some(path)
  }

  /** The input made of `node`: a readable file or directory, under its destination, with its own content's id and size. */
  predicate InputIs(h: Hash, encode: Encoding, dest: Dest, node: Node, input: TaskInput) {
    match node
    case File(_, _, data, executable, opens) =>
      opens && GoesTo(dest, false, input.dest) && input == FileInput(input.dest, h(data), |data|, executable)
    case Dir(_, opens) =>
      var encoded := encode(multiset(FilesOf(h, Walk(node))));
      opens && GoesTo(dest, true, input.dest) && input == TreeInput(input.dest, h(encoded), |encoded|)
    case _ => false
  }

  /** Under limits an input is what the local path itself names; without, what it leads to. */
  predicate InputsAre(h: Hash, encode: Encoding, specs: seq<Spec>, limits: Option<Limits>, inputs: seq<TaskInput>) {
    && |inputs| == |specs|
    && (limits.Some? ==> forall i :: 0 <= i < |specs| ==> InputIs(h, encode, specs[i].dest, specs[i].node, inputs[i]))
    && (limits.None? ==> forall i :: 0 <= i < |specs| ==> InputIs(h, encode, specs[i].dest, specs[i].followed, inputs[i]))
  }

  lemma SpecGives(h: Hash, encode: Encoding, s: State, spec: Spec, limits: Option<Limits>)
    requires TakenSpec(h, encode, s, spec, limits).Some?
    ensures var inputs := TakenSpec(h, encode, s, spec, limits).value.inputs;
            && |inputs| == |s.inputs| + 1 && inputs[..|s.inputs|] == s.inputs
            && InputIs(h, encode, spec.dest, if limits.Some? then spec.node else spec.followed, inputs[|s.inputs|])
  {
  }

  lemma {:induction false} ScanGives(h: Hash, encode: Encoding, specs: seq<Spec>, limits: Option<Limits>)
    requires TakenSpecs(h, encode, specs, limits).Some?
    ensures InputsAre(h, encode, specs, limits, TakenSpecs(h, encode, specs, limits).value.inputs)
  {
    if specs != [] {
      var front, last := specs[..|specs| - 1], specs[|specs| - 1];
      ScanGives(h, encode, front, limits);
      var s := TakenSpecs(h, encode, front, limits).value;
      SpecGives(h, encode, s, last, limits);
      OneMoreInput(h, encode, specs, limits, TakenSpecs(h, encode, specs, limits).value.inputs);
    }
  }

  lemma OneMoreInput(h: Hash, encode: Encoding, specs: seq<Spec>, limits: Option<Limits>, inputs: seq<TaskInput>)
    requires specs != [] && |inputs| == |specs|
    requires var last := |specs| - 1;
             && InputsAre(h, encode, specs[..last], limits, inputs[..last])
             && InputIs(h, encode, specs[last].dest, if limits.Some? then specs[last].node else specs[last].followed, inputs[last])
    ensures InputsAre(h, encode, specs, limits, inputs)
  {
    var last := |specs| - 1;
    forall i | 0 <= i < |specs|
      ensures InputIs(h, encode, specs[i].dest, if limits.Some? then specs[i].node else specs[i].followed, inputs[i])
    {
      if i < last {
        assert specs[..last][i] == specs[i] && inputs[..last][i] == inputs[i];
      }
    }
  }

  /** Two lists of inputs that look the same to a scan: with limits links are seen, without they are not. */
  predicate LookSame(a: seq<Spec>, b: seq<Spec>, limits: Option<Limits>) {
    |a| == |b| && forall i :: 0 <= i < |a| ==>
      && a[i].local == b[i].local && a[i].dest == b[i].dest
      && (limits.Some? ==> a[i].node == b[i].node) && (limits.None? ==> a[i].followed == b[i].followed)
  }

  /** A scan under limits never looks behind a link, and one without never notices one. */
  lemma {:induction false} SameLookSameScan(h: Hash, encode: Encoding, a: seq<Spec>, b: seq<Spec>, limits: Option<Limits>)
    requires LookSame(a, b, limits)
    ensures TakenSpecs(h, encode, a, limits) == TakenSpecs(h, encode, b, limits)
    decreases |a|
  {
    if a != [] {
      var last := |a| - 1;
      forall i | 0 <= i < last
        ensures a[..last][i] == a[i] && b[..last][i] == b[i]
      {
      }
      SameLookSameScan(h, encode, a[..last], b[..last], limits);
      SameLookSameSpec(h, encode, a[last], b[last], limits);
    }
  }

  lemma SameLookSameSpec(h: Hash, encode: Encoding, a: Spec, b: Spec, limits: Option<Limits>)
    requires a.local == b.local && a.dest == b.dest
    requires (limits.Some? ==> a.node == b.node) && (limits.None? ==> a.followed == b.followed)
    ensures forall s :: TakenSpec(h, encode, s, a, limits) == TakenSpec(h, encode, s, b, limits)
  {
  }

  // ---- The scan ----------------------------------------------------------------------------

  ghost function StateOf(p: PreparedInputs): State
    reads p
  {
    State(p.View(), p.inputs)
  }

  method TakeTree(p: PreparedInputs, spec: Spec, node: Node, dest: Path, limits: Option<Limits>) returns (ok: bool)
    requires node.Dir?
    modifies p
    ensures var scanned := Run(p.hash, spec.local, old(p.View()), Walk(node), limits);
            && (ok <==> Readable([RootFrame(node)]) && scanned.Some? && ManifestOk(Manifest(p.hash, node)))
            && (ok ==> StateOf(p) == AfterTree(p.hash, p.encode, old(StateOf(p)), scanned.value, Manifest(p.hash, node), dest))
    ensures Within(old(p.files), old(p.bytes), limits) ==> Within(p.files, p.bytes, limits)
  {
    var r := p.ScanDirectory(spec.local, node, limits);
    if r.Err? {
      return false;
    }
    if !ManifestOk(r.value) {
      return false;
    }
    var encoded := p.encode(multiset(r.value));
    var id := p.hash(encoded);
    p.inputs := p.inputs + [TreeInput(dest, id, |encoded|)];
    p.blobs := p.blobs[id := LocalBlob(|encoded|, InMemory(encoded))];
    return true;
  }

  method TakeSpec(p: PreparedInputs, spec: Spec, limits: Option<Limits>) returns (ok: bool)
    modifies p
    ensures var after := TakenSpec(p.hash, p.encode, old(StateOf(p)), spec, limits);
            (ok <==> after.Some?) && (ok ==> after == Some(StateOf(p)))
    ensures Within(old(p.files), old(p.bytes), limits) ==> Within(p.files, p.bytes, limits)
  {
    var node := Seen(spec, limits);
    var target := Target(spec, node.Dir?);
    if target.BadDestination? {
      return false;
    }
    if node.File? {
      var r := p.AddFile(LocalPath(spec.local, []), node, limits, limits.Some?);
      if r.Err? {
        return false;
      }
      p.inputs := p.inputs + [FileInput(target.path, r.value.id, r.value.size, r.value.executable)];
      return true;
    } else if node.Dir? {
      ok := TakeTree(p, spec, node, target.path, limits);
    } else {
      return false;
    }
  }

  /** The inputs of one submission. The limits hold in every state on the way, failed scans included. */
  method ScanInputs(h: Hash, encode: Encoding, specs: seq<Spec>, limits: Option<Limits>) returns (p: PreparedInputs, ok: bool)
    ensures fresh(p) && p.hash == h && p.encode == encode
    ensures var after := TakenSpecs(h, encode, specs, limits);
            (ok <==> after.Some? && ValidInputs(after.value.inputs)) && (ok ==> after == Some(StateOf(p)))
    ensures ok ==> InputsAre(h, encode, specs, limits, p.inputs)
    ensures ok ==> |specs| <= 1024 && forall i, j :: 0 <= i < j < |specs| ==> p.inputs[i].dest != p.inputs[j].dest
    ensures Within(p.files, p.bytes, limits)
  {
    p := new PreparedInputs(h, encode);
    for i := 0 to |specs|
      invariant fresh(p) && p.hash == h && p.encode == encode
      invariant TakenSpecs(h, encode, specs[..i], limits) == Some(StateOf(p))
      invariant Within(p.files, p.bytes, limits)
    {
      assert specs[..i + 1][..i] == specs[..i];
      ok := TakeSpec(p, specs[i], limits);
      if !ok {
        FailsForGood(h, encode, specs, i + 1, limits);
        return;
      }
    }
    assert specs[..|specs|] == specs;
    ok := ValidInputs(p.inputs);
    ScanGives(h, encode, specs, limits);
  }

  lemma {:induction false} FailsForGood(h: Hash, encode: Encoding, specs: seq<Spec>, k: nat, limits: Option<Limits>)
    requires k <= |specs| && TakenSpecs(h, encode, specs[..k], limits).None?
    ensures TakenSpecs(h, encode, specs, limits).None?
  {
    if k < |specs| {
      var front := specs[..|specs| - 1];
      assert front[..k] == specs[..k];
      FailsForGood(h, encode, front, k, limits);
    } else {
      assert specs[..k] == specs;
    }
  }

  // ---- What a scanned state says -----------------------------------------------------------

  function Ids(sent: seq<BlobFile>): set<BlobId> {
    set f | f in sent :: f.id
  }

  /** What the last visit adds to the files sent and to their size. */
  lemma LastVisit(h: Hash, visits: seq<Visit>)
    requires visits != []
    ensures var front, v := visits[..|visits| - 1], visits[|visits| - 1];
            var sent := FilesOf(h, front);
            if Sends(v)
            then FilesOf(h, visits) == sent + [FileOf(h, v)] && SkipsOf(visits) == SkipsOf(front)
                 && TotalSize(FilesOf(h, visits)) == TotalSize(sent) + |v.node.data|
                 && Ids(FilesOf(h, visits)) == Ids(sent) + {h(v.node.data)}
            else FilesOf(h, visits) == sent && SkipsOf(visits) == SkipsOf(front) + [SkipOf(v)]
  {
    var front, v := visits[..|visits| - 1], visits[|visits| - 1];
    var sent := FilesOf(h, front);
    if Sends(v) {
      assert (sent + [FileOf(h, v)])[..|sent|] == sent;
    }
  }

  lemma {:induction false} RunCounts(h: Hash, local: string, l: Ledger, visits: seq<Visit>, limits: Option<Limits>)
    requires Run(h, local, l, visits, limits).Some?
    ensures var m := Run(h, local, l, visits, limits).value;
            && m.files == l.files + |FilesOf(h, visits)|
            && m.bytes == l.bytes + TotalSize(FilesOf(h, visits))
            && m.skipped == l.skipped + SkipsOf(visits)
  {
    if visits != [] {
      RunCounts(h, local, l, visits[..|visits| - 1], limits);
      LastVisit(h, visits);
    }
  }

  lemma {:induction false} RunIndexes(h: Hash, local: string, l: Ledger, visits: seq<Visit>, limits: Option<Limits>)
    requires Run(h, local, l, visits, limits).Some?
    ensures Run(h, local, l, visits, limits).value.blobs.Keys == l.blobs.Keys + Ids(FilesOf(h, visits))
  {
    if visits == [] {
      assert Ids(FilesOf(h, [])) == {};
    } else {
      RunIndexes(h, local, l, visits[..|visits| - 1], limits);
      LastVisit(h, visits);
    }
  }

  predicate Steady(visits: seq<Visit>) {
    forall i :: 0 <= i < |visits| && visits[i].node.File? ==> visits[i].node.len == |visits[i].node.data|
  }

  /** An entry that is to be sent can be read, and its type can be told. */
  predicate NoFault(v: Visit) {
    v.name.utf8 && ValidPath(JoinPath(v.dir, v.name.bytes)) ==> !v.node.Unknown? && (v.node.File? ==> v.node.opens)
  }

  predicate Faultless(visits: seq<Visit>) {
    forall i :: 0 <= i < |visits| ==> NoFault(visits[i])
  }

  lemma FitsOneMore(l: Ledger, sent: seq<BlobFile>, m: Ledger, v: Visit, limits: Option<Limits>)
    requires m.files == l.files + |sent| && m.bytes == l.bytes + TotalSize(sent)
    requires Within(m.files, m.bytes, limits) && (v.node.File? ==> v.node.len == |v.node.data|)
    ensures Passes(m, v, limits) <==>
            NoFault(v) && (Sends(v) ==> Within(m.files + 1, m.bytes + |v.node.data|, limits))
  {
  }

  /** If no file changes size while it is read, a scan fits exactly if all its files together fit. */
  lemma {:induction false} FitsExactlyIf(h: Hash, local: string, l: Ledger, visits: seq<Visit>, limits: Option<Limits>)
    requires Steady(visits) && Within(l.files, l.bytes, limits)
    ensures var sent := FilesOf(h, visits);
            Run(h, local, l, visits, limits).Some? <==>
            Faultless(visits) && Within(l.files + |sent|, l.bytes + TotalSize(sent), limits)
  {
    if visits != [] {
      var front, v := visits[..|visits| - 1], visits[|visits| - 1];
      assert visits == front + [v];
      SteadySplits(front, v);
      FitsExactlyIf(h, local, l, front, limits);
      FitsStep(h, local, l, front, v, limits);
    }
  }

  lemma SteadySplits(front: seq<Visit>, v: Visit)
    requires Steady(front + [v])
    ensures Steady(front) && (v.node.File? ==> v.node.len == |v.node.data|)
  {
    assert (front + [v])[|front|] == v;
    forall i | 0 <= i < |front| && front[i].node.File?
      ensures front[i].node.len == |front[i].node.data|
    {
      assert (front + [v])[i] == front[i];
    }
  }

  lemma FitsStep(h: Hash, local: string, l: Ledger, front: seq<Visit>, v: Visit, limits: Option<Limits>)
    requires Within(l.files, l.bytes, limits) && (v.node.File? ==> v.node.len == |v.node.data|)
    requires var sent := FilesOf(h, front);
             Run(h, local, l, front, limits).Some? <==>
             Faultless(front) && Within(l.files + |sent|, l.bytes + TotalSize(sent), limits)
    ensures var sent := FilesOf(h, front + [v]);
            Run(h, local, l, front + [v], limits).Some? <==>
            Faultless(front + [v]) && Within(l.files + |sent|, l.bytes + TotalSize(sent), limits)
  {
    var before := Run(h, local, l, front, limits);
    RunOneMore(h, local, l, front, v, limits);
    FaultlessSplits(front, v);
    SentOneMore(h, front, v);
    if before.Some? {
      RunCounts(h, local, l, front, limits);
      FitsOneMore(l, FilesOf(h, front), before.value, v, limits);
    }
  }

  lemma SentOneMore(h: Hash, front: seq<Visit>, v: Visit)
    ensures |FilesOf(h, front + [v])| == |FilesOf(h, front)| + if Sends(v) then 1 else 0
    ensures TotalSize(FilesOf(h, front + [v])) == TotalSize(FilesOf(h, front)) + if Sends(v) then |v.node.data| else 0
  {
    LastVisit(h, front + [v]);
    assert (front + [v])[..|front|] == front;
  }

  lemma FaultlessSplits(front: seq<Visit>, v: Visit)
    ensures Faultless(front + [v]) <==> Faultless(front) && NoFault(v)
  {
    assert (front + [v])[|front|] == v;
    if Faultless(front + [v]) {
      forall i | 0 <= i < |front| ensures NoFault(front[i]) {
        assert (front + [v])[i] == front[i];
      }
    }
  }

  lemma {:induction false} RunKeepsWithin(h: Hash, local: string, l: Ledger, visits: seq<Visit>, limits: Option<Limits>)
    requires Run(h, local, l, visits, limits).Some? && Within(l.files, l.bytes, limits)
    ensures var m := Run(h, local, l, visits, limits).value; Within(m.files, m.bytes, limits)
  {
    if visits != [] {
      RunKeepsWithin(h, local, l, visits[..|visits| - 1], limits);
    }
  }

  /** The limits hold however long the files turn out to be when they are read. */
  lemma {:induction false} LimitsHold(h: Hash, encode: Encoding, specs: seq<Spec>, limits: Option<Limits>)
    requires TakenSpecs(h, encode, specs, limits).Some?
    ensures var l := TakenSpecs(h, encode, specs, limits).value.ledger; Within(l.files, l.bytes, limits)
  {
    if specs != [] {
      var front, last := specs[..|specs| - 1], specs[|specs| - 1];
      LimitsHold(h, encode, front, limits);
      var s := TakenSpecs(h, encode, front, limits).value;
      if Seen(last, limits).Dir? {
        RunKeepsWithin(h, last.local, s.ledger, Walk(Seen(last, limits)), limits);
      }
    }
  }

  // ---- Closure -----------------------------------------------------------------------------

  /** Every blob a task with this input needs: the input's own, and for a tree those of its files. */
  function Needs(h: Hash, encode: Encoding, spec: Spec, limits: Option<Limits>): set<BlobId> {
    var node := Seen(spec, limits);
    if node.File? then {h(node.data)}
    else if node.Dir? then {h(encode(multiset(Manifest(h, node))))} + Ids(Manifest(h, node))
    else {}
  }

  function AllNeeds(h: Hash, encode: Encoding, specs: seq<Spec>, limits: Option<Limits>): set<BlobId> {
    if specs == [] then {}
    else AllNeeds(h, encode, specs[..|specs| - 1], limits) + Needs(h, encode, specs[|specs| - 1], limits)
  }

  function FilesIn(h: Hash, node: Node): nat {
    if node.File? then 1 else if node.Dir? then |Manifest(h, node)| else 0
  }

  function BytesIn(h: Hash, node: Node): nat {
    if node.File? then |node.data| else if node.Dir? then TotalSize(Manifest(h, node)) else 0
  }

  function AllFiles(h: Hash, specs: seq<Spec>, limits: Option<Limits>): nat {
    if specs == [] then 0
    else AllFiles(h, specs[..|specs| - 1], limits) + FilesIn(h, Seen(specs[|specs| - 1], limits))
  }

  function AllBytes(h: Hash, specs: seq<Spec>, limits: Option<Limits>): nat {
    if specs == [] then 0
    else AllBytes(h, specs[..|specs| - 1], limits) + BytesIn(h, Seen(specs[|specs| - 1], limits))
  }

  lemma SpecAdds(h: Hash, encode: Encoding, s: State, spec: Spec, limits: Option<Limits>)
    requires TakenSpec(h, encode, s, spec, limits).Some?
    ensures var t := TakenSpec(h, encode, s, spec, limits).value;
            && t.ledger.files == s.ledger.files + FilesIn(h, Seen(spec, limits))
            && t.ledger.bytes == s.ledger.bytes + BytesIn(h, Seen(spec, limits))
            && t.ledger.blobs.Keys == s.ledger.blobs.Keys + Needs(h, encode, spec, limits)
            && |t.inputs| == |s.inputs| + 1 && t.inputs[..|s.inputs|] == s.inputs
            && t.inputs[|s.inputs|].id in Needs(h, encode, spec, limits)
  {
    var node := Seen(spec, limits);
    if node.Dir? {
      RunCounts(h, spec.local, s.ledger, Walk(node), limits);
      RunIndexes(h, spec.local, s.ledger, Walk(node), limits);
    }
  }

  /**
   A scan's totals are those of its inputs, and its index holds the blobs its inputs need, all of
   them and no others: an input's own blob, and every file named inside a tree's manifest.
   */
  lemma {:induction false} ScanIsClosed(h: Hash, encode: Encoding, specs: seq<Spec>, limits: Option<Limits>)
    requires TakenSpecs(h, encode, specs, limits).Some?
    ensures var s := TakenSpecs(h, encode, specs, limits).value;
            && s.ledger.files == AllFiles(h, specs, limits)
            && s.ledger.bytes == AllBytes(h, specs, limits)
            && s.ledger.blobs.Keys == AllNeeds(h, encode, specs, limits)
            && |s.inputs| == |specs|
            && (forall i :: 0 <= i < |specs| ==> s.inputs[i].id in Needs(h, encode, specs[i], limits))
            && (forall i :: 0 <= i < |specs| ==> Needs(h, encode, specs[i], limits) <= s.ledger.blobs.Keys)
  {
    if specs != [] {
      var front, last := specs[..|specs| - 1], specs[|specs| - 1];
      ScanIsClosed(h, encode, front, limits);
      var s := TakenSpecs(h, encode, front, limits).value;
      SpecAdds(h, encode, s, last, limits);
      var t := TakenSpecs(h, encode, specs, limits).value;
      forall i | 0 <= i < |specs|
        ensures t.inputs[i].id in Needs(h, encode, specs[i], limits)
        ensures Needs(h, encode, specs[i], limits) <= t.ledger.blobs.Keys
      {
        if i < |front| {
          assert front[i] == specs[i] && t.inputs[..|front|][i] == t.inputs[i];
        }
      }
    }
  }

  // ---- When a scan succeeds ----------------------------------------------------------------

  predicate HasDestination(dest: Dest, isDir: bool) {
    match dest
    case Given(text) => NormalizeDestination(text, isDir).Destination?
    case Derived(derived) => derived.Some?
  }

  /** Nothing about this input makes the scan fail, but perhaps the limits. */
  predicate Acceptable(h: Hash, dest: Dest, node: Node) {
    match node
    case File(_, _, _, _, opens) => opens && HasDestination(dest, false)
    case Dir(_, _) =>
      && HasDestination(dest, true) && node.opens && OpenBelow([], node.entries) && |Manifest(h, node)| <= 500_000
      && Faultless(Walk(node))
    case _ => false
  }

  predicate SteadyNode(node: Node) {
    && (node.File? ==> node.len == |node.data|)
    && (node.Dir? ==> WellFormed(node.entries) && Steady(Walk(node)))
  }

  lemma TargetExists(spec: Spec, isDir: bool)
    ensures Target(spec, isDir).Destination? <==> HasDestination(spec.dest, isDir)
  {
  }

  /** What a scan asks of an input, with `l` counted before it. */
  predicate SpecPasses(h: Hash, l: Ledger, spec: Spec, node: Node, limits: Option<Limits>) {
    match node
    case File(_, _, _, _, _) => Target(spec, false).Destination? && !Refuses(l.files, l.bytes, node, limits)
    case Dir(_, _) =>
      && Target(spec, true).Destination? && Readable([RootFrame(node)]) && ManifestOk(Manifest(h, node))
      && Run(h, spec.local, l, Walk(node), limits).Some?
    case _ => false
  }

  lemma TakenIfPasses(h: Hash, encode: Encoding, s: State, spec: Spec, limits: Option<Limits>)
    ensures TakenSpec(h, encode, s, spec, limits).Some? <==> SpecPasses(h, s.ledger, spec, Seen(spec, limits), limits)
  {
  }

  lemma DirPasses(h: Hash, l: Ledger, spec: Spec, node: Node, limits: Option<Limits>, passes: bool)
    requires node.Dir? && WellFormed(node.entries) && (passes <==> SpecPasses(h, l, spec, node, limits))
    ensures passes <==>
            && HasDestination(spec.dest, true) && node.opens && OpenBelow([], node.entries) && |Manifest(h, node)| <= 500_000
            && Run(h, spec.local, l, Walk(node), limits).Some?
  {
    TargetExists(spec, true);
    ReadableExactlyIf([RootFrame(node)]);
    ScanMakesManifest(h, node);
  }

  /** Limits and faults decide whether the visits pass, beside what else there is. */
  lemma VisitsFit(h: Hash, local: string, l: Ledger, node: Node, limits: Option<Limits>, passes: bool, rest: bool)
    requires Within(l.files, l.bytes, limits) && node.Dir? && Steady(Walk(node))
    requires passes <==> rest && Run(h, local, l, Walk(node), limits).Some?
    ensures passes <==>
            rest && Faultless(Walk(node)) && Within(l.files + FilesIn(h, node), l.bytes + BytesIn(h, node), limits)
  {
    FitsExactlyIf(h, local, l, Walk(node), limits);
  }

  lemma WholeTreeFits(h: Hash, local: string, l: Ledger, node: Node, limits: Option<Limits>, passes: bool, dest: bool)
    requires Within(l.files, l.bytes, limits) && node.Dir? && Steady(Walk(node))
    requires passes <==>
             && dest && node.opens && OpenBelow([], node.entries) && |Manifest(h, node)| <= 500_000
             && Run(h, local, l, Walk(node), limits).Some?
    ensures passes <==>
            && dest && node.opens && OpenBelow([], node.entries) && |Manifest(h, node)| <= 500_000 && Faultless(Walk(node))
            && Within(l.files + FilesIn(h, node), l.bytes + BytesIn(h, node), limits)
  {
    VisitsFit(h, local, l, node, limits, passes, dest && node.opens && OpenBelow([], node.entries) && |Manifest(h, node)| <= 500_000);
  }

  lemma DirFits(h: Hash, l: Ledger, spec: Spec, node: Node, limits: Option<Limits>, passes: bool)
    requires Within(l.files, l.bytes, limits) && node.Dir? && WellFormed(node.entries) && Steady(Walk(node))
    requires passes <==> SpecPasses(h, l, spec, node, limits)
    ensures passes <==>
            Acceptable(h, spec.dest, node) && Within(l.files + FilesIn(h, node), l.bytes + BytesIn(h, node), limits)
  {
    DirPasses(h, l, spec, node, limits, passes);
    WholeTreeFits(h, spec.local, l, node, limits, passes, HasDestination(spec.dest, true));
  }

  lemma FileFits(h: Hash, l: Ledger, spec: Spec, node: Node, limits: Option<Limits>)
    requires Within(l.files, l.bytes, limits) && node.File? && node.len == |node.data|
    ensures SpecPasses(h, l, spec, node, limits) <==>
            Acceptable(h, spec.dest, node) && Within(l.files + FilesIn(h, node), l.bytes + BytesIn(h, node), limits)
  {
    TargetExists(spec, false);
  }

  lemma NodeFits(h: Hash, l: Ledger, spec: Spec, node: Node, limits: Option<Limits>)
    requires Within(l.files, l.bytes, limits) && SteadyNode(node)
    ensures SpecPasses(h, l, spec, node, limits) <==>
            Acceptable(h, spec.dest, node) && Within(l.files + FilesIn(h, node), l.bytes + BytesIn(h, node), limits)
  {
    if node.Dir? {
      DirFits(h, l, spec, node, limits, SpecPasses(h, l, spec, node, limits));
    } else if node.File? {
      FileFits(h, l, spec, node, limits);
    }
  }

  lemma SpecFits(h: Hash, encode: Encoding, s: State, spec: Spec, node: Node, limits: Option<Limits>)
    requires Within(s.ledger.files, s.ledger.bytes, limits) && node == Seen(spec, limits) && SteadyNode(node)
    ensures TakenSpec(h, encode, s, spec, limits).Some? <==>
            Acceptable(h, spec.dest, node) && Within(s.ledger.files + FilesIn(h, node), s.ledger.bytes + BytesIn(h, node), limits)
  {
    TakenIfPasses(h, encode, s, spec, limits);
    NodeFits(h, s.ledger, spec, node, limits);
  }

  predicate AllAcceptable(h: Hash, specs: seq<Spec>, limits: Option<Limits>) {
    && (limits.Some? ==> forall i :: 0 <= i < |specs| ==> Acceptable(h, specs[i].dest, specs[i].node))
    && (limits.None? ==> forall i :: 0 <= i < |specs| ==> Acceptable(h, specs[i].dest, specs[i].followed))
  }

  lemma AcceptableSplits(h: Hash, specs: seq<Spec>, limits: Option<Limits>)
    requires specs != []
    ensures var front, last := specs[..|specs| - 1], specs[|specs| - 1];
            AllAcceptable(h, specs, limits) <==>
            AllAcceptable(h, front, limits) && Acceptable(h, last.dest, if limits.Some? then last.node else last.followed)
  {
    var front, last := specs[..|specs| - 1], specs[|specs| - 1];
    assert forall i :: 0 <= i < |front| ==> front[i] == specs[i];
    assert specs == front + [last];
  }

  /**
   A scan of files that do not change size while they are read succeeds exactly if each of its inputs
   is a readable file or directory with a usable destination, and all together fit the limits.
   */
  lemma {:induction false} ScanSucceedsExactlyIf(h: Hash, encode: Encoding, specs: seq<Spec>, limits: Option<Limits>)
    requires forall i :: 0 <= i < |specs| ==> SteadyNode(Seen(specs[i], limits))
    ensures TakenSpecs(h, encode, specs, limits).Some? <==>
            AllAcceptable(h, specs, limits) && Within(AllFiles(h, specs, limits), AllBytes(h, specs, limits), limits)
  {
    if specs != [] {
      var front, last := specs[..|specs| - 1], specs[|specs| - 1];
      assert forall i :: 0 <= i < |front| ==> front[i] == specs[i];
      ScanSucceedsExactlyIf(h, encode, front, limits);
      AcceptableSplits(h, specs, limits);
      if TakenSpecs(h, encode, front, limits).Some? {
        ScanIsClosed(h, encode, front, limits);
        SpecFits(h, encode, TakenSpecs(h, encode, front, limits).value, last, Seen(last, limits), limits);
      }
    }
  }
}
