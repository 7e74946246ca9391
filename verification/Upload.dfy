/**
 Uploading the blobs of prepared inputs that the master lacks: `upload_inputs`
 (crates/cli/src/blobs.rs) with `missing_blobs`, `upload_blob` and `for_each_concurrently`
 (crates/core/src/blob_transfer.rs). Uploads of different blobs take turns in any order.
 */
module Upload {
  import opened Wrappers
  import opened Sums
  import opened Tree
  import opened Inputs
  import opened Master

  const BLOB_CHUNK_BYTES := 4_194_304

  /** What is at a local path itself, and what is there after following a link. */
  datatype Place = Place(node: Node, followed: Node)

  /** The local files at the time of the upload. */
  type Disk = LocalPath -> Place

  /** A blob to send, and what its source yields; `None` if it cannot be opened or has changed. */
  datatype Job = Job(id: BlobId, size: nat, source: Option<Bytes>)

  function Reads(disk: Disk, blob: LocalBlob): Option<Bytes> {
    match blob.source
    case InMemory(bytes) => Some(bytes)
    case OnDisk(path, fingerprint) =>
      var node := if fingerprint.nofollow then disk(path).node else disk(path).followed;
      if node.File? && node.opens && node.len == fingerprint.len && node.stamp == fingerprint.stamp
      then Some(node.data) else None
  }

  function JobOf(disk: Disk, id: BlobId, blob: LocalBlob): Job {
    Job(id, blob.size, Reads(disk, blob))
  }

  /** The source still yields the bytes the blob is named after. */
  predicate Good(h: Hash, job: Job) {
    job.source.Some? && |job.source.value| >= job.size && h(job.source.value[..job.size]) == job.id
  }

  // ---- One blob ----------------------------------------------------------------------------

  /** How far one upload has come. */
  datatype Stage = At(offset: nat) | Done(sent: nat)

  function Want(job: Job, offset: nat): nat
    requires offset <= job.size
  {
    if job.size - offset <= BLOB_CHUNK_BYTES then job.size - offset else BLOB_CHUNK_BYTES
  }

  predicate Between(job: Job, offset: nat) {
    offset == 0 || offset < job.size
  }

  /** The master has exactly the first `offset` bytes. */
  predicate InProgress(uploads: map<BlobId, Upload>, job: Job, offset: nat) {
    offset == 0 || (
      && job.source.Some? && offset <= |job.source.value|
      && job.id in uploads && uploads[job.id] == Upload(job.size, job.source.value[..offset]))
  }

  /** Where one more chunk leads when the master only does what it is asked. */
  function Next(h: Hash, job: Job, offset: nat): Option<Stage>
    requires Between(job, offset)
  {
    var end := offset + Want(job, offset);
    if job.source.None? || |job.source.value| < end then None
    else if end < job.size then Some(At(end))
    else if h(job.source.value[..job.size]) == job.id then Some(Done(job.size))
    else None
  }

  lemma ChunkLands(h: Hash, db: Db, job: Job, offset: nat)
    requires Between(job, offset) && job.id !in db.blobs && InProgress(db.uploads, job, offset)
    requires job.source.Some? && offset + Want(job, offset) <= |job.source.value|
    ensures var end := offset + Want(job, offset);
            var data := job.source.value;
            var o := WriteChunk(h, db, job.id, job.size, offset, data[offset..end]);
            match Next(h, job, offset)
            case None => o.reply.Failed? && o.db.blobs == db.blobs
            case Some(At(next)) =>
              o.reply == Written(next, false) && o.db.blobs == db.blobs && InProgress(o.db.uploads, job, next)
            case Some(Done(sent)) =>
              o.reply == Written(sent, true) && o.db.blobs == db.blobs[job.id := data[..job.size]]
  {
    var end := offset + Want(job, offset);
    var data := job.source.value;
    var upload := if offset == 0 then Upload(job.size, []) else db.uploads[job.id];
    assert upload == Upload(job.size, data[..offset]);
    assert data[..offset] + data[offset..end] == data[..end];
  }

  /** What the client makes of the reply to the chunk that ends at `end`. */
  function StageAfter(job: Job, end: nat, reply: Reply): Option<Stage> {
    if reply.Failed? then None
    else if reply.complete then Some(Done(end))
    else if reply.received == end && end < job.size then Some(At(end))
    else None
  }

  /** The upload has got further, or is done. */
  predicate GoesOn(uploads: map<BlobId, Upload>, job: Job, r: Option<Stage>) {
    r.Some? && (r.value.At? ==> InProgress(uploads, job, r.value.offset))
  }

  /** What a chunk does at a master that is left alone. */
  predicate Lands(h: Hash, before: Db, after: Db, job: Job, offset: nat, r: Option<Stage>)
    requires Between(job, offset)
  {
    && r == Next(h, job, offset)
    && (r.Some? && r.value.At? ==> after.blobs == before.blobs && InProgress(after.uploads, job, r.value.offset))
    && (r.Some? && r.value.Done? ==> after.blobs == before.blobs[job.id := job.source.value[..job.size]])
  }

  /** A chunk sent to a master that has all before it gets the upload on, whatever else is held. */
  lemma GoodChunk(h: Hash, db: Db, job: Job, offset: nat)
    requires Between(job, offset) && InProgress(db.uploads, job, offset) && Good(h, job)
    ensures var end := offset + Want(job, offset);
            end <= |job.source.value| &&
            var o := WriteChunk(h, db, job.id, job.size, offset, job.source.value[offset..end]);
            GoesOn(o.db.uploads, job, StageAfter(job, end, o.reply))
  {
    NextExactlyIf(h, job, offset);
    if job.id !in db.blobs {
      ChunkLands(h, db, job, offset);
    }
  }

  lemma LoneChunk(h: Hash, db: Db, job: Job, offset: nat)
    requires Between(job, offset) && job.id !in db.blobs && InProgress(db.uploads, job, offset)
    requires job.source.Some? && offset + Want(job, offset) <= |job.source.value|
    ensures var end := offset + Want(job, offset);
            var o := WriteChunk(h, db, job.id, job.size, offset, job.source.value[offset..end]);
            Lands(h, db, o.db, job, offset, StageAfter(job, end, o.reply))
  {
    ChunkLands(h, db, job, offset);
  }

  method SendChunk(m: Store, job: Job, offset: nat) returns (r: Option<Stage>)
    requires m.Valid() && Between(job, offset)
    modifies m
    ensures m.Valid() && m.Holds() && m.uploads - {job.id} == old(m.uploads) - {job.id}
    ensures r.Some? && r.value.Done? ==> job.id in m.blobs && r.value.sent <= job.size
    ensures r.Some? && r.value.At? ==> offset < r.value.offset < job.size
    ensures Obliging(m.script, old(m.time), m.time) && Good(m.hash, job) && InProgress(old(m.uploads), job, offset) ==>
      GoesOn(m.uploads, job, r)
    ensures Calm(m.script) && job.id !in old(m.blobs) && InProgress(old(m.uploads), job, offset) ==>
      Lands(m.hash, old(m.View()), m.View(), job, offset, r)
  {
    if job.source.None? {
      return None;
    }
    var data := job.source.value;
    var end := offset + Want(job, offset);
    if |data| < end {
      return None;
    }
    ghost var before := m.View();
    var reply, seen := m.Write(job.id, job.size, offset, data[offset..end]);
    if InProgress(before.uploads, job, offset) {
      if job.id !in before.blobs {
        LoneChunk(m.hash, before, job, offset);
      }
      if Good(m.hash, job) {
        GoodChunk(m.hash, Db(seen, before.uploads), job, offset);
      }
    }
    return StageAfter(job, end, reply);
  }

  // ---- Many blobs, taking turns ------------------------------------------------------------

  datatype Slot = Slot(job: Job, stage: Stage)

  function Work(slot: Slot): nat {
    if slot.stage.At? && slot.stage.offset <= slot.job.size then slot.job.size - slot.stage.offset + 1
    else if slot.stage.At? then 1 else 0
  }

  function SentOf(slot: Slot): nat {
    if slot.stage.Done? then slot.stage.sent else 0
  }

  function SizeOf(slot: Slot): nat {
    slot.job.size
  }

  predicate OwnIds(slots: seq<Slot>) {
    forall i, j :: 0 <= i < j < |slots| ==> slots[i].job.id != slots[j].job.id
  }

  predicate SameJobs(a: seq<Slot>, b: seq<Slot>) {
    |a| == |b| && forall i :: 0 <= i < |a| ==> a[i].job == b[i].job
  }

  /** A finished upload is held, or was evicted since. */
  ghost predicate SlotSafe(slot: Slot, blobs: map<BlobId, Bytes>, script: Script, from: nat, to: nat) {
    match slot.stage
    case At(offset) => Between(slot.job, offset)
    case Done(sent) => sent <= slot.job.size && Kept(blobs, script, slot.job.id, from, to)
  }

  /** At a calm master an upload in progress is there as far as it got, a finished one entirely. */
  ghost predicate SlotExact(h: Hash, slot: Slot, db: Db) {
    match slot.stage
    case At(offset) => slot.job.id !in db.blobs && InProgress(db.uploads, slot.job, offset)
    case Done(sent) =>
      && sent == slot.job.size && Good(h, slot.job)
      && slot.job.id in db.blobs && db.blobs[slot.job.id] == slot.job.source.value[..sent]
  }

  ghost predicate Exact(h: Hash, slots: seq<Slot>, db: Db, before: map<BlobId, Bytes>) {
    && (forall k :: 0 <= k < |slots| ==> SlotExact(h, slots[k], db))
    && (forall id :: id in before ==> id in db.blobs && db.blobs[id] == before[id])
    && (forall id :: id in db.blobs && id !in before ==> exists k :: 0 <= k < |slots| && slots[k].job.id == id)
  }

  lemma NextExactlyIf(h: Hash, job: Job, offset: nat)
    requires Between(job, offset)
    ensures Good(h, job) ==> Next(h, job, offset).Some?
    ensures Next(h, job, offset).Some? && Next(h, job, offset).value.Done? ==> Good(h, job)
  {
  }

  lemma OtherSlot(h: Hash, slot: Slot, old_: Db, new_: Db, id: BlobId)
    requires SlotExact(h, slot, old_) && slot.job.id != id
    requires new_.uploads - {id} == old_.uploads - {id}
    requires new_.blobs - {id} == old_.blobs - {id}
    ensures SlotExact(h, slot, new_)
  {
    assert slot.job.id in new_.blobs <==> slot.job.id in new_.blobs - {id};
    assert slot.job.id in old_.blobs <==> slot.job.id in old_.blobs - {id};
    if slot.job.id in new_.blobs - {id} {
      assert (new_.blobs - {id})[slot.job.id] == (old_.blobs - {id})[slot.job.id];
    }
    assert slot.job.id in new_.uploads <==> slot.job.id in new_.uploads - {id};
    assert slot.job.id in old_.uploads <==> slot.job.id in old_.uploads - {id};
    if slot.job.id in new_.uploads - {id} {
      assert (new_.uploads - {id})[slot.job.id] == (old_.uploads - {id})[slot.job.id];
    }
  }

  lemma ExactStep(h: Hash, slots: seq<Slot>, k: nat, stage: Stage, before: map<BlobId, Bytes>, old_: Db, new_: Db)
    requires k < |slots| && slots[k].stage.At? && OwnIds(slots) && Exact(h, slots, old_, before)
    requires Between(slots[k].job, slots[k].stage.offset) && Next(h, slots[k].job, slots[k].stage.offset) == Some(stage)
    requires var job := slots[k].job;
             && new_.uploads - {job.id} == old_.uploads - {job.id}
             && (stage.At? ==> new_.blobs == old_.blobs && InProgress(new_.uploads, job, stage.offset))
             && (stage.Done? ==> new_.blobs == old_.blobs[job.id := job.source.value[..job.size]])
    ensures Exact(h, slots[k := slots[k].(stage := stage)], new_, before)
  {
    var job := slots[k].job;
    var after := slots[k := slots[k].(stage := stage)];
    NextExactlyIf(h, job, slots[k].stage.offset);
    assert new_.blobs - {job.id} == old_.blobs - {job.id};
    forall j | 0 <= j < |after| ensures SlotExact(h, after[j], new_) {
      if j != k {
        OtherSlot(h, slots[j], old_, new_, job.id);
      }
    }
    forall id | id in new_.blobs && id !in before
      ensures exists j :: 0 <= j < |after| && after[j].job.id == id
    {
      if id == job.id {
        assert after[k].job.id == id;
      } else {
        var j :| 0 <= j < |slots| && slots[j].job.id == id;
        assert after[j].job.id == id;
      }
    }
  }

  ghost predicate Landed(job: Job, blobs: map<BlobId, Bytes>) {
    job.source.Some? && job.size <= |job.source.value| && job.id in blobs && blobs[job.id] == job.source.value[..job.size]
  }

  /** Exactly the jobs' blobs were added, with the content their sources yielded. */
  ghost predicate Stored(jobs: seq<Slot>, before: map<BlobId, Bytes>, after: map<BlobId, Bytes>) {
    && (forall k :: 0 <= k < |jobs| ==> Landed(jobs[k].job, after))
    && (forall id :: id in before ==> id in after && after[id] == before[id])
    && (forall id :: id in after && id !in before ==> exists k :: 0 <= k < |jobs| && jobs[k].job.id == id)
  }

  ghost predicate Safe(slots: seq<Slot>, blobs: map<BlobId, Bytes>, script: Script, from: nat, to: nat) {
    forall k :: 0 <= k < |slots| ==> SlotSafe(slots[k], blobs, script, from, to)
  }

  /** The sources of all jobs yield what they should, and uploads under way are there as far as they got. */
  ghost predicate Smooth(h: Hash, slots: seq<Slot>, uploads: map<BlobId, Upload>) {
    forall k :: 0 <= k < |slots| ==>
      Good(h, slots[k].job) && (slots[k].stage.At? ==> InProgress(uploads, slots[k].job, slots[k].stage.offset))
  }

  lemma SmoothStep(h: Hash, slots: seq<Slot>, k: nat, stage: Stage, uploads: map<BlobId, Upload>, uploads': map<BlobId, Upload>)
    requires k < |slots| && OwnIds(slots) && Smooth(h, slots, uploads)
    requires uploads' - {slots[k].job.id} == uploads - {slots[k].job.id}
    requires stage.At? ==> InProgress(uploads', slots[k].job, stage.offset)
    ensures Smooth(h, slots[k := slots[k].(stage := stage)], uploads')
  {
    var id, after := slots[k].job.id, slots[k := slots[k].(stage := stage)];
    forall j | 0 <= j < |after| && j != k && after[j].stage.At?
      ensures InProgress(uploads', after[j].job, after[j].stage.offset)
    {
      var other := slots[j].job.id;
      assert InProgress(uploads, slots[j].job, slots[j].stage.offset);
      assert other != id;
      assert other in uploads' <==> other in uploads' - {id};
      assert other in uploads <==> other in uploads - {id};
      if other in uploads - {id} {
        assert (uploads' - {id})[other] == (uploads - {id})[other];
      }
    }
  }

  /** What is safe stays safe while the master goes on. */
  lemma SafeStep(slots: seq<Slot>, k: nat, stage: Stage, script: Script, from: nat,
                 held: map<BlobId, Bytes>, t: nat, held': map<BlobId, Bytes>, t': nat)
    requires Safe(slots, held, script, from, t) && k < |slots| && from <= t <= t'
    requires forall id :: id in held ==> Kept(held', script, id, t, t')
    requires SlotSafe(slots[k].(stage := stage), held', script, from, t')
    ensures Safe(slots[k := slots[k].(stage := stage)], held', script, from, t')
  {
    var after := slots[k := slots[k].(stage := stage)];
    forall j | 0 <= j < |after| ensures SlotSafe(after[j], held', script, from, t') {
      if j != k {
        assert SlotSafe(slots[j], held, script, from, t);
        if slots[j].stage.Done? {
          KeptLonger(held, held', script, slots[j].job.id, from, t, t');
        }
      }
    }
  }

  lemma KeptLonger(held: map<BlobId, Bytes>, held': map<BlobId, Bytes>, script: Script, id: BlobId, from: nat, t: nat, t': nat)
    requires Kept(held, script, id, from, t) && from <= t <= t'
    requires id in held ==> Kept(held', script, id, t, t')
    ensures Kept(held', script, id, from, t')
  {
  }

  /** Everything known about uploads that take turns, since `start`. */
  ghost predicate Underway(h: Hash, slots: seq<Slot>, db: Db, before: map<BlobId, Bytes>, script: Script, start: nat, now: nat,
                           exact: bool, good: bool)
  {
    && start <= now && OwnIds(slots) && Safe(slots, db.blobs, script, start, now)
    && (forall id :: id in before ==> Kept(db.blobs, script, id, start, now))
    && (exact ==> Calm(script) && Exact(h, slots, db, before))
    && (good && Obliging(script, start, now) ==> Smooth(h, slots, db.uploads))
  }

  /** What one chunk of slot `k` leads to. */
  ghost predicate Advanced(h: Hash, slots: seq<Slot>, k: nat, stage: Stage, old_: Db, t: nat, new_: Db, t': nat, script: Script)
    requires k < |slots| && slots[k].stage.At? && Between(slots[k].job, slots[k].stage.offset)
  {
    var job, offset := slots[k].job, slots[k].stage.offset;
    && t <= t' && (forall id :: id in old_.blobs ==> Kept(new_.blobs, script, id, t, t'))
    && new_.uploads - {job.id} == old_.uploads - {job.id}
    && (stage.Done? ==> job.id in new_.blobs && stage.sent <= job.size)
    && (stage.At? ==> offset < stage.offset < job.size)
    && (Obliging(script, t, t') && Good(h, job) && InProgress(old_.uploads, job, offset) && stage.At? ==>
          InProgress(new_.uploads, job, stage.offset))
    && (Calm(script) && job.id !in old_.blobs && InProgress(old_.uploads, job, offset) ==>
          && Next(h, job, offset) == Some(stage)
          && (stage.At? ==> new_.blobs == old_.blobs && InProgress(new_.uploads, job, stage.offset))
          && (stage.Done? ==> new_.blobs == old_.blobs[job.id := job.source.value[..job.size]]))
  }

  lemma UnderwayStep(h: Hash, slots: seq<Slot>, k: nat, stage: Stage, old_: Db, t: nat, new_: Db, t': nat,
                     before: map<BlobId, Bytes>, script: Script, start: nat, exact: bool, good: bool)
    requires k < |slots| && slots[k].stage.At? && Between(slots[k].job, slots[k].stage.offset)
    requires Underway(h, slots, old_, before, script, start, t, exact, good)
    requires Advanced(h, slots, k, stage, old_, t, new_, t', script)
    ensures Underway(h, slots[k := slots[k].(stage := stage)], new_, before, script, start, t', exact, good)
  {
    SafeStep(slots, k, stage, script, start, old_.blobs, t, new_.blobs, t');
    KeptOver(before, old_.blobs, new_.blobs, script, start, t, t');
    if exact {
      assert SlotExact(h, slots[k], old_);
      ExactStep(h, slots, k, stage, before, old_, new_);
    }
    if good && Obliging(script, start, t') {
      SmoothStep(h, slots, k, stage, old_.uploads, new_.uploads);
    }
  }

  /** One chunk of one upload. */
  method Turn(m: Store, slots: seq<Slot>, k: nat, ghost start: nat, ghost exact: bool, ghost good: bool, ghost before: map<BlobId, Bytes>)
    returns (ok: bool, slots': seq<Slot>)
    requires m.Valid() && k < |slots| && slots[k].stage.At?
    requires Underway(m.hash, slots, m.View(), before, m.script, start, m.time, exact, good)
    modifies m
    ensures m.Valid() && m.Holds()
    ensures ok ==> SameJobs(slots', slots) && Sum(slots', Work) < Sum(slots, Work)
    ensures ok ==> Underway(m.hash, slots', m.View(), before, m.script, start, m.time, exact, good)
    ensures exact && !ok ==> !Good(m.hash, slots[k].job)
    ensures good && Obliging(m.script, start, m.time) ==> ok
  {
    ghost var db, t := m.View(), m.time;
    var slot := slots[k];
    assert SlotSafe(slot, m.blobs, m.script, start, m.time);
    assert exact ==> SlotExact(m.hash, slot, db);
    var r := SendChunk(m, slot.job, slot.stage.offset);
    NextExactlyIf(m.hash, slot.job, slot.stage.offset);
    if r.None? {
      return false, slots;
    }
    UnderwayStep(m.hash, slots, k, r.value, db, t, m.View(), m.time, before, m.script, start, exact, good);
    SumUpdate(slots, k, slot.(stage := r.value), Work);
    return true, slots[k := slot.(stage := r.value)];
  }

  /** Every job has been sent, or one has failed. */
  method UploadAll(m: Store, jobs: seq<Slot>) returns (ok: bool, bytes: nat)
    requires m.Valid() && OwnIds(jobs) && forall k :: 0 <= k < |jobs| ==> jobs[k].stage == At(0)
    modifies m
    ensures m.Valid() && m.Holds()
    ensures ok ==> forall k :: 0 <= k < |jobs| ==> Kept(m.blobs, m.script, jobs[k].job.id, old(m.time), m.time)
    ensures ok ==> bytes <= Sum(jobs, SizeOf)
    ensures AllGood(m.hash, jobs) && Obliging(m.script, old(m.time), m.time) ==> ok
    ensures Calm(m.script) && (forall k :: 0 <= k < |jobs| ==> jobs[k].job.id !in old(m.blobs)) ==>
      && (ok <==> AllGood(m.hash, jobs))
      && (ok ==> bytes == Sum(jobs, SizeOf) && Stored(jobs, old(m.blobs), m.blobs))
  {
    var slots := jobs;
    ghost var before, start := m.blobs, m.time;
    ghost var exact := Calm(m.script) && forall k :: 0 <= k < |jobs| ==> jobs[k].job.id !in m.blobs;
    ghost var good := AllGood(m.hash, jobs);
    while exists k :: 0 <= k < |slots| && slots[k].stage.At?
      invariant m.Valid() && SameJobs(slots, jobs)
      invariant Underway(m.hash, slots, m.View(), before, m.script, start, m.time, exact, good)
      decreases Sum(slots, Work)
    {
      var k :| 0 <= k < |slots| && slots[k].stage.At?;
      ghost var held, t := m.blobs, m.time;
      var more;
      more, slots := Turn(m, slots, k, start, exact, good, before);
      if !more {
        KeptOver(before, held, m.blobs, m.script, start, t, m.time);
        return false, 0;
      }
    }
    AllSent(m.hash, slots, jobs, m.View(), before, m.script, start, m.time, exact);
    return true, Sum(slots, SentOf);
  }

  ghost predicate AllGood(h: Hash, jobs: seq<Slot>) {
    forall k :: 0 <= k < |jobs| ==> Good(h, jobs[k].job)
  }

  lemma AllSent(h: Hash, slots: seq<Slot>, jobs: seq<Slot>, db: Db, before: map<BlobId, Bytes>, script: Script, from: nat, to: nat, exact: bool)
    requires SameJobs(slots, jobs) && Safe(slots, db.blobs, script, from, to) && (exact ==> Exact(h, slots, db, before))
    requires forall k :: 0 <= k < |slots| ==> slots[k].stage.Done?
    ensures Sum(slots, SentOf) <= Sum(jobs, SizeOf)
    ensures forall k :: 0 <= k < |jobs| ==> Kept(db.blobs, script, jobs[k].job.id, from, to)
    ensures exact ==> Sum(slots, SentOf) == Sum(jobs, SizeOf)
    ensures exact ==> AllGood(h, jobs)
    ensures exact ==> Stored(jobs, before, db.blobs)
  {
    SameSizes(slots, jobs);
    forall k | 0 <= k < |jobs|
      ensures SentOf(slots[k]) <= SizeOf(slots[k]) && Kept(db.blobs, script, jobs[k].job.id, from, to)
    {
      assert SlotSafe(slots[k], db.blobs, script, from, to);
    }
    SumMonotone(slots, SentOf, SizeOf);
    if exact {
      forall k | 0 <= k < |jobs|
        ensures SizeOf(slots[k]) <= SentOf(slots[k]) && Good(h, jobs[k].job) && Landed(jobs[k].job, db.blobs)
      {
        assert SlotExact(h, slots[k], db);
      }
      SumMonotone(slots, SizeOf, SentOf);
    }
  }

  lemma {:induction false} SameSizes(a: seq<Slot>, b: seq<Slot>)
    requires SameJobs(a, b)
    ensures Sum(a, SizeOf) == Sum(b, SizeOf)
  {
    if a != [] {
      SameSizes(a[1..], b[1..]);
    }
  }

  // ---- All that prepared inputs need -------------------------------------------------------

  datatype Report = Report(blobs: nat, uploaded: nat, bytes: nat)

  /** The keys of the index, in some order. */
  method Keys(blobs: map<BlobId, LocalBlob>) returns (ids: seq<BlobId>)
    ensures Unrepeated(ids) && |ids| == |blobs| && forall id :: id in ids <==> id in blobs
  {
    ids := [];
    var rest := blobs.Keys;
    while rest != {}
      invariant Unrepeated(ids) && |ids| + |rest| == |blobs| && rest <= blobs.Keys
      invariant forall id :: id in ids <==> id in blobs && id !in rest
      decreases |rest|
    {
      var id :| id in rest;
      ids, rest := ids + [id], rest - {id};
    }
  }

  /** What the batches asked about so far have shown. */
  ghost predicate Asked(ids: seq<BlobId>, missing: seq<BlobId>, blobs: map<BlobId, Bytes>, script: Script, from: nat, to: nat) {
    && Unrepeated(missing)
    && (forall id :: id in missing ==> id in ids)
    && (forall id :: id in ids && id !in missing ==> Kept(blobs, script, id, from, to))
  }

  /** What was reported missing was not held at the start, unless it was evicted. */
  ghost predicate Lacked(missing: seq<BlobId>, before: map<BlobId, Bytes>, script: Script, from: nat, to: nat) {
    forall id :: id in missing ==> id !in before || Evicted(script, id, from, to)
  }

  method MissingBlobs(m: Store, ids: seq<BlobId>) returns (ok: bool, missing: seq<BlobId>)
    requires m.Valid() && Unrepeated(ids)
    modifies m
    ensures m.Valid() && m.Holds() && m.uploads == old(m.uploads)
    ensures ok ==> Asked(ids, missing, m.blobs, m.script, old(m.time), m.time)
    ensures ok ==> Lacked(missing, old(m.blobs), m.script, old(m.time), m.time)
    ensures Obliging(m.script, old(m.time), m.time) ==> ok
    ensures Calm(m.script) ==> ok && m.blobs == old(m.blobs) && forall id :: id in missing ==> id !in m.blobs
  {
    missing := [];
    var at := 0;
    ghost var before, start := m.blobs, m.time;
    while at < |ids|
      invariant 0 <= at <= |ids| && m.Valid() && start <= m.time && m.uploads == old(m.uploads)
      invariant forall id :: id in before ==> Kept(m.blobs, m.script, id, start, m.time)
      invariant Asked(ids[..at], missing, m.blobs, m.script, start, m.time) && Lacked(missing, before, m.script, start, m.time)
      invariant Calm(m.script) ==> m.blobs == before && forall id :: id in missing ==> id !in m.blobs
    {
      var end := if |ids| - at <= MAX_MISSING_QUERY then |ids| else at + MAX_MISSING_QUERY;
      ghost var held, t := m.blobs, m.time;
      var more;
      ok, more := m.Missing(ids[at..end]);
      forall id | Kept(held, m.script, id, start, t) ensures Kept(m.blobs, m.script, id, start, m.time) {
        KeptLonger(held, m.blobs, m.script, id, start, t, m.time);
      }
      if !ok {
        return;
      }
      LackingIs(m.blobs, ids[at..end]);
      AskedMore(ids, at, end, missing, more, held, m.blobs, m.script, start, t, m.time);
      missing := missing + more;
      at := end;
    }
    assert ids[..at] == ids;
    ok := true;
  }

  lemma AskedMore(ids: seq<BlobId>, at: nat, end: nat, missing: seq<BlobId>, more: seq<BlobId>,
                  held: map<BlobId, Bytes>, held': map<BlobId, Bytes>, script: Script, from: nat, t: nat, t': nat)
    requires at <= end <= |ids| && Unrepeated(ids) && Asked(ids[..at], missing, held, script, from, t)
    requires forall id :: Kept(held, script, id, from, t) ==> Kept(held', script, id, from, t')
    requires Unrepeated(more) && forall id :: id in more <==> id in ids[at..end] && id !in held'
    ensures Asked(ids[..end], missing + more, held', script, from, t')
  {
    assert ids[..end] == ids[..at] + ids[at..end];
    forall i, j | 0 <= i < j < |missing + more|
      ensures (missing + more)[i] != (missing + more)[j]
    {
      if i < |missing| && |missing| <= j {
        var x, y := missing[i], more[j - |missing|];
        assert x in ids[..at] && y in ids[at..end];
        var a :| 0 <= a < at && ids[a] == x;
        var b :| 0 <= b < end - at && ids[at..end][b] == y;
        assert ids[at + b] == y;
      }
    }
  }

  function Jobs(disk: Disk, blobs: map<BlobId, LocalBlob>, ids: seq<BlobId>): (r: seq<Slot>)
    requires forall id :: id in ids ==> id in blobs
    ensures |r| == |ids| && forall k :: 0 <= k < |ids| ==> r[k] == Slot(JobOf(disk, ids[k], blobs[ids[k]]), At(0))
  {
    if ids == [] then []
    else
      var last := ids[|ids| - 1];
      Jobs(disk, blobs, ids[..|ids| - 1]) + [Slot(JobOf(disk, last, blobs[last]), At(0))]
  }

  ghost predicate AllKept(index: map<BlobId, LocalBlob>, blobs: map<BlobId, Bytes>, script: Script, from: nat, to: nat) {
    forall id :: id in index ==> Kept(blobs, script, id, from, to)
  }

  /** The ids are those of the index the store lacks. */
  ghost predicate ExactlyLacked(sent: seq<BlobId>, index: map<BlobId, LocalBlob>, blobs: map<BlobId, Bytes>) {
    forall id :: id in sent <==> id in index && id !in blobs
  }

  /** Every blob the store lacks can still be read as it was scanned. */
  ghost predicate Sendable(h: Hash, disk: Disk, index: map<BlobId, LocalBlob>, blobs: map<BlobId, Bytes>) {
    forall id :: id in index && id !in blobs ==> Good(h, JobOf(disk, id, index[id]))
  }

  lemma SendableJobs(h: Hash, disk: Disk, index: map<BlobId, LocalBlob>, blobs: map<BlobId, Bytes>, sent: seq<BlobId>)
    requires forall id :: id in sent ==> id in index && id !in blobs
    requires Sendable(h, disk, index, blobs)
    ensures AllGood(h, Jobs(disk, index, sent))
  {
    var jobs := Jobs(disk, index, sent);
    forall k | 0 <= k < |jobs| ensures Good(h, jobs[k].job) {
      assert sent[k] in sent && jobs[k].job == JobOf(disk, sent[k], index[sent[k]]);
    }
  }

  lemma GoodJobs(h: Hash, disk: Disk, index: map<BlobId, LocalBlob>, blobs: map<BlobId, Bytes>, sent: seq<BlobId>)
    requires ExactlyLacked(sent, index, blobs) && AllGood(h, Jobs(disk, index, sent))
    ensures Sendable(h, disk, index, blobs)
  {
    var jobs := Jobs(disk, index, sent);
    forall id | id in index && id !in blobs ensures Good(h, JobOf(disk, id, index[id])) {
      var k :| 0 <= k < |sent| && sent[k] == id;
      assert jobs[k].job == JobOf(disk, id, index[id]) && Good(h, jobs[k].job);
    }
  }

  /** Everything on the list is sent, or something fails. */
  method SendLacking(m: Store, index: map<BlobId, LocalBlob>, disk: Disk, ids: seq<BlobId>) returns (ok: bool, bytes: nat)
    requires m.Valid() && Unrepeated(ids) && forall id :: id in ids ==> id in index
    modifies m
    ensures m.Valid() && m.Holds()
    ensures ok ==> bytes <= Sum(Jobs(disk, index, ids), SizeOf)
    ensures ok ==> forall id :: id in ids ==> Kept(m.blobs, m.script, id, old(m.time), m.time)
    ensures Sendable(m.hash, disk, index, map[]) && Obliging(m.script, old(m.time), m.time) ==> ok
    ensures Calm(m.script) && ExactlyLacked(ids, index, old(m.blobs)) ==>
      && (ok <==> Sendable(m.hash, disk, index, old(m.blobs)))
      && (ok ==> bytes == Sum(Jobs(disk, index, ids), SizeOf) && Stored(Jobs(disk, index, ids), old(m.blobs), m.blobs))
    ensures ids == [] && Obliging(m.script, old(m.time), m.time) ==> ok && bytes == 0
  {
    var jobs := Jobs(disk, index, ids);
    if ExactlyLacked(ids, index, m.blobs) {
      if Sendable(m.hash, disk, index, m.blobs) {
        SendableJobs(m.hash, disk, index, m.blobs, ids);
      }
      if AllGood(m.hash, jobs) {
        GoodJobs(m.hash, disk, index, m.blobs, ids);
      }
    }
    if Sendable(m.hash, disk, index, map[]) {
      SendableJobs(m.hash, disk, index, map[], ids);
    }
    ok, bytes := UploadAll(m, jobs);
    if ok {
      forall id | id in ids ensures Kept(m.blobs, m.script, id, old(m.time), m.time) {
        var k :| 0 <= k < |ids| && ids[k] == id;
        assert jobs[k].job.id == id;
      }
    }
  }

  /**
   After a successful upload the master holds every blob of the index, except what the script evicted
   while the upload went on. Only blobs it lacked at the start, or evicted since, were sent. If no
   request is refused and every source still yields what was scanned, the upload succeeds; and at a
   master left alone exactly then, with exactly the lacking blobs sent and stored.
   */
  method UploadInputs(m: Store, index: map<BlobId, LocalBlob>, disk: Disk)
    returns (r: Option<Report>, ghost sent: seq<BlobId>)
    requires m.Valid()
    modifies m
    ensures m.Valid() && m.Holds()
    ensures r.Some? ==> AllKept(index, m.blobs, m.script, old(m.time), m.time)
    ensures r.Some? || Obliging(m.script, old(m.time), m.time) ==> Lacked(sent, old(m.blobs), m.script, old(m.time), m.time)
    ensures r.Some? || Obliging(m.script, old(m.time), m.time) ==> Unrepeated(sent) && (forall id :: id in sent ==> id in index)
    ensures r.Some? ==> r.value.blobs == |index| && r.value.uploaded == |sent|
    ensures r.Some? ==> r.value.bytes <= Sum(Jobs(disk, index, sent), SizeOf)
    ensures Obliging(m.script, old(m.time), m.time) && (Sendable(m.hash, disk, index, map[]) || sent == []) ==> r.Some?
    ensures Calm(m.script) ==> (r.Some? <==> Sendable(m.hash, disk, index, old(m.blobs)))
    ensures Calm(m.script) && r.Some? ==>
      && ExactlyLacked(sent, index, old(m.blobs))
      && r.value.bytes == Sum(Jobs(disk, index, sent), SizeOf)
      && Stored(Jobs(disk, index, sent), old(m.blobs), m.blobs)
  {
    var ids := Keys(index);
    ghost var before, start := m.blobs, m.time;
    var ok, missing := MissingBlobs(m, ids);
    sent := missing;
    if !ok {
      return None, sent;
    }
    ghost var held, t := m.blobs, m.time;
    var bytes;
    ok, bytes := SendLacking(m, index, disk, missing);
    KeptOver(before, held, m.blobs, m.script, start, t, m.time);
    if !ok {
      return None, sent;
    }
    IndexKept(index, ids, missing, held, m.blobs, m.script, start, t, m.time);
    return Some(Report(|ids|, |missing|, bytes)), sent;
  }

  lemma KeptOver(a: map<BlobId, Bytes>, b: map<BlobId, Bytes>, c: map<BlobId, Bytes>, script: Script, from: nat, t: nat, to: nat)
    requires from <= t <= to
    requires forall id :: id in a ==> Kept(b, script, id, from, t)
    requires forall id :: id in b ==> Kept(c, script, id, t, to)
    ensures forall id :: id in a ==> Kept(c, script, id, from, to)
  {
    forall id | id in a ensures Kept(c, script, id, from, to) {
      KeptLonger(b, c, script, id, from, t, to);
    }
  }

  lemma IndexKept(index: map<BlobId, LocalBlob>, ids: seq<BlobId>, missing: seq<BlobId>,
                  held: map<BlobId, Bytes>, held': map<BlobId, Bytes>, script: Script, from: nat, t: nat, to: nat)
    requires from <= t <= to && (forall id :: id in ids <==> id in index) && Asked(ids, missing, held, script, from, t)
    requires forall id :: id in held ==> Kept(held', script, id, t, to)
    requires forall id :: id in missing ==> Kept(held', script, id, t, to)
    ensures AllKept(index, held', script, from, to)
  {
    forall id | id in index ensures Kept(held', script, id, from, to) {
      if id !in missing {
        KeptLonger(held, held', script, id, from, t, to);
      }
    }
  }

  /** What a second upload found missing was evicted since the first began. */
  lemma ResentWasEvicted(index: map<BlobId, LocalBlob>, sent: seq<BlobId>, held: map<BlobId, Bytes>, script: Script, from: nat, t: nat, to: nat)
    requires from <= t <= to && AllKept(index, held, script, from, t)
    requires Lacked(sent, held, script, t, to) && forall id :: id in sent ==> id in index
    ensures forall id :: id in sent ==> Evicted(script, id, from, to)
  {
  }

  lemma NothingEvicted(sent: seq<BlobId>, script: Script, from: nat, to: nat)
    requires forall id :: id in sent ==> Evicted(script, id, from, to)
    requires forall t: nat :: from <= t < to ==> script(t).evictions == {}
    ensures sent == []
  {
    assert sent != [] ==> Evicted(script, sent[0], from, to);
  }

  /** What an upload says about the master and about what it sent, whatever else happens. */
  method UploadOnce(m: Store, index: map<BlobId, LocalBlob>, disk: Disk) returns (r: Option<Report>, ghost sent: seq<BlobId>)
    requires m.Valid()
    modifies m
    ensures m.Valid() && old(m.time) <= m.time
    ensures r.Some? ==> AllKept(index, m.blobs, m.script, old(m.time), m.time)
    ensures r.Some? || Obliging(m.script, old(m.time), m.time) ==> Lacked(sent, old(m.blobs), m.script, old(m.time), m.time)
    ensures r.Some? || Obliging(m.script, old(m.time), m.time) ==> forall id :: id in sent ==> id in index
    ensures r.Some? ==> r.value.blobs == |index| && r.value.uploaded == |sent| && (sent == [] ==> r.value.bytes == 0)
    ensures Obliging(m.script, old(m.time), m.time) && sent == [] ==> r.Some?
  {
    r, sent := UploadInputs(m, index, disk);
    assert sent == [] ==> Sum(Jobs(disk, index, []), SizeOf) == 0;
  }

  /** Uploading the same inputs again sends only what was evicted since, so nothing if nothing was. */
  method UploadTwice(m: Store, index: map<BlobId, LocalBlob>, disk: Disk, disk': Disk)
    returns (first: Option<Report>, second: Option<Report>, ghost resent: seq<BlobId>)
    requires m.Valid()
    modifies m
    ensures old(m.time) <= m.time
    ensures first.Some? && second.Some? ==> second.value.uploaded == |resent|
    ensures first.Some? && second.Some? ==> forall id :: id in resent ==> Evicted(m.script, id, old(m.time), m.time)
    ensures first.Some? && (forall t: nat :: old(m.time) <= t < m.time ==> m.script(t).evictions == {}) ==>
      && (second.Some? ==> second == Some(Report(|index|, 0, 0)))
      && (Obliging(m.script, old(m.time), m.time) ==> second.Some?)
  {
    ghost var sent, start := [], m.time;
    first, sent := UploadOnce(m, index, disk);
    ghost var held, t := m.blobs, m.time;
    second, resent := UploadOnce(m, index, disk');
    if first.Some? && (second.Some? || Obliging(m.script, start, m.time)) {
      ResentWasEvicted(index, resent, held, m.script, start, t, m.time);
      if forall t: nat :: start <= t < m.time ==> m.script(t).evictions == {} {
        NothingEvicted(resent, m.script, start, m.time);
      }
    }
  }
}
