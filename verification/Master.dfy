/**
 The master's side of blob transfer, as one connection sees it: `missing`, `write_chunk`, `append`
 and `commit` of crates/master/src/blob_store.rs. What everyone else does to the store around a
 request, and every refusal for lack of space or because of an I/O error, is a script nobody controls.
 */
module Master {
  import opened Tree

  const MAX_MISSING_QUERY := 65_536
  const MAX_CHUNK_BYTES := 8_388_608

  datatype Upload = Upload(total: nat, data: Bytes)

  datatype Reply = Written(received: nat, complete: bool) | Failed

  /** Something that happens at the master: blobs arrive, blobs are evicted, a request is refused. */
  datatype Event = Event(arrivals: map<BlobId, Bytes>, evictions: set<BlobId>, refuses: bool)

  const QUIET := Event(map[], {}, false)

  type Script = nat -> Event

  ghost predicate Calm(script: Script) {
    forall t: nat :: script(t) == QUIET
  }

  /** The blob is evicted at some time in this span. */
  ghost predicate Evicted(script: Script, id: BlobId, from: nat, to: nat) {
    exists t: nat :: from <= t < to && id in script(t).evictions
  }

  /** No request is refused in this span. */
  ghost predicate Obliging(script: Script, from: nat, to: nat) {
    forall t: nat :: from <= t < to ==> !script(t).refuses
  }

  /** The blob is held, or was evicted in this span. */
  ghost predicate Kept(blobs: map<BlobId, Bytes>, script: Script, id: BlobId, from: nat, to: nat) {
    id in blobs || Evicted(script, id, from, to)
  }

  function Honest(h: Hash, blobs: map<BlobId, Bytes>): map<BlobId, Bytes> {
    map id | id in blobs && h(blobs[id]) == id :: blobs[id]
  }

  // ---- One chunk ---------------------------------------------------------------------------

  /** The store, and this connection's uploads in progress. */
  datatype Db = Db(blobs: map<BlobId, Bytes>, uploads: map<BlobId, Upload>)

  datatype Outcome = Outcome(db: Db, reply: Reply)

  predicate ChunkOk(len: nat, remaining: nat) {
    len <= MAX_CHUNK_BYTES && len <= remaining && (len == 0 ==> remaining == 0)
  }

  function Abandon(db: Db, id: BlobId): Outcome {
    Outcome(db.(uploads := db.uploads - {id}), Failed)
  }

  function Append(h: Hash, db: Db, id: BlobId, total: nat, offset: nat, chunk: Bytes, upload: Upload): Outcome {
    if upload.total != total || offset != |upload.data| || |upload.data| > total
       || !ChunkOk(|chunk|, total - |upload.data|) then Abandon(db, id)
    else
      var data := upload.data + chunk;
      if |data| < total then Outcome(db.(uploads := db.uploads[id := Upload(total, data)]), Written(|data|, false))
      else if h(data) != id then Abandon(db, id)
      else Outcome(Db(db.blobs[id := data], db.uploads - {id}), Written(total, true))
  }

  function WriteChunk(h: Hash, db: Db, id: BlobId, total: nat, offset: nat, chunk: Bytes): Outcome {
    if id in db.blobs then Outcome(db.(uploads := db.uploads - {id}), Written(total, true))
    else if offset == 0 then Append(h, db, id, total, offset, chunk, Upload(total, []))
    else if id in db.uploads then Append(h, db, id, total, offset, chunk, db.uploads[id])
    else Outcome(db, Failed)
  }

  ghost predicate TrueNames(h: Hash, blobs: map<BlobId, Bytes>) {
    forall id :: id in blobs ==> h(blobs[id]) == id
  }

  /** Whatever the chunk, the store keeps what it has and only gains the blob under its true name. */
  lemma WriteChunkKeeps(h: Hash, db: Db, id: BlobId, total: nat, offset: nat, chunk: Bytes)
    requires TrueNames(h, db.blobs)
    ensures var o := WriteChunk(h, db, id, total, offset, chunk);
            && TrueNames(h, o.db.blobs)
            && db.blobs.Keys <= o.db.blobs.Keys <= db.blobs.Keys + {id}
            && (o.reply.Written? && o.reply.complete ==> id in o.db.blobs)
            && o.db.uploads - {id} == db.uploads - {id}
  {
  }

  /** What has been received of the blob before a chunk at `offset`; a chunk at 0 starts over. */
  function ReceivedBefore(db: Db, id: BlobId, offset: nat): Bytes {
    if offset > 0 && id in db.uploads then db.uploads[id].data else []
  }

  /** The chunk goes on where the upload of this blob stands. */
  predicate GoesOn(db: Db, id: BlobId, total: nat, offset: nat) {
    offset == |ReceivedBefore(db, id, offset)| && (offset > 0 ==> id in db.uploads && db.uploads[id].total == total)
  }

  /** A chunk is empty only for an empty blob, and never too long. */
  predicate RightSize(total: nat, before: Bytes, chunk: Bytes) {
    && |chunk| <= 8_388_608 && |before + chunk| <= total && (chunk == [] ==> |before| == total)
  }

  /**
   A chunk of a blob the master lacks is accepted exactly if it goes on where the upload stands, is of
   the right size, and, if it is the last, completes content with the right hash. Then the upload
   stands behind it, or the blob is held.
   */
  lemma ChunkAcceptedExactlyIf(h: Hash, db: Db, id: BlobId, total: nat, offset: nat, chunk: Bytes)
    requires id !in db.blobs
    ensures var o, before := WriteChunk(h, db, id, total, offset, chunk), ReceivedBefore(db, id, offset);
            var data := before + chunk;
            var done := |data| == total;
            && (o.reply.Written? <==>
                  GoesOn(db, id, total, offset) && RightSize(total, before, chunk) && (done ==> h(data) == id))
            && (o.reply.Written? ==>
                  && o.reply == Written(|data|, done)
                  && o.db.blobs == (if done then db.blobs[id := data] else db.blobs)
                  && (!done ==> id in o.db.uploads && o.db.uploads[id] == Upload(total, data)))
            && (o.reply.Failed? ==> o.db.blobs == db.blobs)
  {
  }

  /** Where `x` first stands. */
  function FirstAt(ids: seq<BlobId>, x: BlobId): nat
    requires x in ids
  {
    if ids[0] == x then 0 else 1 + FirstAt(ids[1..], x)
  }

  lemma {:induction false} FirstAtPrefix(front: seq<BlobId>, last: BlobId, x: BlobId)
    requires x in front || x == last
    ensures x in front ==> FirstAt(front + [last], x) == FirstAt(front, x) < |front|
    ensures x !in front ==> FirstAt(front + [last], x) == |front|
  {
    var ids := front + [last];
    assert x in ids by {
      assert ids[|front|] == last;
    }
    if front != [] && front[0] != x {
      assert ids[1..] == front[1..] + [last];
      FirstAtPrefix(front[1..], last, x);
    }
  }

  /** The reply keeps the order in which the ids were first asked for. */
  ghost predicate InOrder(missing: seq<BlobId>, ids: seq<BlobId>) {
    && (forall id :: id in missing ==> id in ids)
    && (forall i, j :: 0 <= i < j < |missing| ==> FirstAt(ids, missing[i]) < FirstAt(ids, missing[j]))
  }

  lemma {:induction false} LackingInOrder(blobs: map<BlobId, Bytes>, ids: seq<BlobId>)
    ensures InOrder(Lacking(blobs, ids), ids)
  {
    if ids != [] {
      var front, last := ids[..|ids| - 1], ids[|ids| - 1];
      LackingInOrder(blobs, front);
      LackingIs(blobs, front);
      LackingIs(blobs, ids);
      assert ids == front + [last];
      var missing, fewer := Lacking(blobs, ids), Lacking(blobs, front);
      forall i, j | 0 <= i < j < |missing|
        ensures FirstAt(ids, missing[i]) < FirstAt(ids, missing[j])
      {
        assert missing[i] == fewer[i] && fewer[i] in fewer;
        FirstAtPrefix(front, last, missing[i]);
        FirstAtPrefix(front, last, missing[j]);
        if j < |fewer| {
          assert missing[j] == fewer[j] && fewer[j] in fewer;
        }
      }
    }
  }

  function Lacking(blobs: map<BlobId, Bytes>, ids: seq<BlobId>): seq<BlobId> {
    if ids == [] then []
    else
      var last := ids[|ids| - 1];
      var before := Lacking(blobs, ids[..|ids| - 1]);
      if last in blobs || last in before then before else before + [last]
  }

  predicate Unrepeated(ids: seq<BlobId>) {
    forall i, j :: 0 <= i < j < |ids| ==> ids[i] != ids[j]
  }

  lemma {:induction false} LackingIs(blobs: map<BlobId, Bytes>, ids: seq<BlobId>)
    ensures forall id :: id in Lacking(blobs, ids) <==> id in ids && id !in blobs
    ensures Unrepeated(Lacking(blobs, ids))
    ensures |Lacking(blobs, ids)| <= |ids|
  {
    if ids != [] {
      LackingIs(blobs, ids[..|ids| - 1]);
      assert ids == ids[..|ids| - 1] + [ids[|ids| - 1]];
    }
  }

  // ---- The store ---------------------------------------------------------------------------

  class Store {
    const hash: Hash
    const script: Script
    var time: nat
    var blobs: map<BlobId, Bytes>
    var uploads: map<BlobId, Upload>

    ghost predicate Valid()
      reads this
    {
      TrueNames(hash, blobs)
    }

    function View(): Db
      reads this
    {
      Db(blobs, uploads)
    }

    /** A blob that is held stays held until the script evicts it. */
    twostate predicate Holds()
      reads this
    {
      && old(time) <= time
      && (forall id :: id in old(blobs) ==> Kept(blobs, script, id, old(time), time))
    }

    constructor (hash: Hash, script: Script)
      ensures Valid() && this.hash == hash && this.script == script && View() == Db(map[], map[]) && time == 0
    {
      this.hash, this.script := hash, script;
      time, blobs, uploads := 0, map[], map[];
    }

    /** The next event of the script; `keep` is what the master is busy storing. */
    method Others(keep: set<BlobId>) returns (refuses: bool)
      requires Valid()
      modifies this
      ensures Valid() && uploads == old(uploads) && Holds() && time == old(time) + 1
      ensures refuses == script(old(time)).refuses
      ensures blobs == old(blobs) + Honest(hash, script(old(time)).arrivals) - (script(old(time)).evictions - keep)
      ensures Calm(script) ==> blobs == old(blobs)
    {
      var event := script(time);
      time := time + 1;
      blobs := blobs + Honest(hash, event.arrivals);
      blobs := blobs - (event.evictions - keep);
      refuses := event.refuses;
    }

    /** The ids the store lacks, in the order asked for and without repeats. */
    method Missing(ids: seq<BlobId>) returns (ok: bool, missing: seq<BlobId>)
      requires Valid()
      modifies this
      ensures Valid() && uploads == old(uploads) && Holds()
      ensures ok <==> |ids| <= MAX_MISSING_QUERY && !script(old(time)).refuses
      ensures ok ==> missing == Lacking(blobs, ids)
      ensures old(time) < time && (Calm(script) ==> blobs == old(blobs))
    {
      var refuses := Others({});
      if refuses || |ids| > MAX_MISSING_QUERY {
        return false, [];
      }
      return true, Lacking(blobs, ids);
    }

    /**
     A chunk, handled with the store as it is when its turn comes. It is completely written only if
     the store then holds the blob under its true name.
     */
    method Write(id: BlobId, total: nat, offset: nat, chunk: Bytes) returns (reply: Reply, ghost seen: map<BlobId, Bytes>)
      requires Valid()
      modifies this
      ensures Valid() && Holds() && old(time) < time
      ensures reply.Written? && reply.complete ==> id in blobs
      ensures uploads - {id} == old(uploads) - {id}
      ensures script(old(time)).refuses ==> reply.Failed?
      ensures !script(old(time)).refuses ==>
        var o := WriteChunk(hash, Db(seen, old(uploads)), id, total, offset, chunk); reply == o.reply && uploads == o.db.uploads
      ensures Calm(script) ==> Outcome(View(), reply) == WriteChunk(hash, old(View()), id, total, offset, chunk)
    {
      var refuses := Others({});
      seen := blobs;
      if refuses {
        uploads := uploads - {id};
        return Failed, seen;
      }
      WriteChunkKeeps(hash, View(), id, total, offset, chunk);
      var outcome := WriteChunk(hash, View(), id, total, offset, chunk);
      blobs, uploads, reply := outcome.db.blobs, outcome.db.uploads, outcome.reply;
      var _ := Others({id});
    }
  }
}
