/** Every step keeps the registry: live connections hold their ids, and nobody else does. */
module HubRegistry {
  import opened Protocol
  import opened Hub
  import opened HubInv
  import opened HubStable
  import opened HubGrows

  /** The registry did not change and nobody claims anything new. */
  lemma RegistrySame(h: State, h': State, c: ConnId)
    requires RegistryOk(h) && Moved(h, h', c) && h'.nodes == h.nodes
    requires c < |h.conns| ==>
      && (h'.conns[c].phase.Removed? ==> h.conns[c].phase.Removed?)
      && h'.conns[c].owned == h.conns[c].owned && !h'.conns[c].task.Adopting?
    ensures RegistryOk(h')
  {
    forall id | id in h'.nodes
      ensures Claims(h'.conns[h'.nodes[id]], id) && !h'.conns[h'.nodes[id]].phase.Removed?
    {
      var k := h.nodes[id];
      assert Claims(h.conns[k], id) && ConnGrows(h.conns[k], h'.conns[k]);
    }
    forall k, id | 0 <= k < |h'.conns| && Claims(h'.conns[k], id)
      ensures Holds(h', k, id)
    {
      assert Claims(h.conns[k], id) && Holds(h, k, id);
      assert ConnGrows(h.conns[k], h'.conns[k]);
    }
  }

  lemma InsertRegistry(h: State, c: ConnId)
    requires RegistryOk(h) && CanInsert(h, c) && TaskOk(h, c)
    ensures RegistryOk(DoInsert(h, c))
  {
    var h', id := DoInsert(h, c), h.conns[c].task.id;
    InsertMoves(h, c);
    if HeldByLivePeer(h, c, id) {
      RegistrySame(h, h', c);
    } else {
      TakeRegistry(h, h', c);
    }
  }

  /** A free or dead entry is taken: whoever claimed the id before is dead or gone. */
  lemma TakeRegistry(h: State, h': State, c: ConnId)
    requires RegistryOk(h) && CanInsert(h, c) && TaskOk(h, c) && Moved(h, h', c)
    requires !HeldByLivePeer(h, c, h.conns[c].task.id)
    requires h'.nodes == h.nodes[h.conns[c].task.id := c]
    requires h'.conns[c] == h.conns[c].(task := Adopting(h.conns[c].task.serial, h.conns[c].task.id))
    ensures RegistryOk(h')
  {
    var id := h.conns[c].task.id;
    forall k, i | 0 <= k < |h'.conns| && Claims(h'.conns[k], i)
      ensures Holds(h', k, i)
    {
      assert ConnGrows(h.conns[k], h'.conns[k]);
      assert Claims(h.conns[k], i) ==> Holds(h, k, i);
    }
  }

  lemma AdoptRegistry(h: State, c: ConnId)
    requires RegistryOk(h) && CanAdopt(h, c)
    ensures RegistryOk(DoAdopt(h, c))
  {
    var h' := DoAdopt(h, c);
    forall k, id | 0 <= k < |h'.conns| && Claims(h'.conns[k], id)
      ensures Holds(h', k, id)
    {
      assert Claims(h.conns[k], id) && Holds(h, k, id);
    }
    forall id | id in h'.nodes
      ensures Claims(h'.conns[h'.nodes[id]], id)
    {
      assert Claims(h.conns[h.nodes[id]], id);
    }
  }

  /** Pruning and cleanup take entries away only from the dead and from the actor that left. */
  lemma ShrinkRegistry(h: State, h': State, c: ConnId)
    requires RegistryOk(h) && Moved(h, h', c) && c < |h.conns|
    requires h'.conns[c].owned == h.conns[c].owned && !h'.conns[c].task.Adopting?
    requires forall id :: id in h'.nodes ==> id in h.nodes && h'.nodes[id] == h.nodes[id]
    requires forall id :: id in h.nodes && id !in h'.nodes ==>
      var k := h.nodes[id]; k < |h.conns| && (h.conns[k].Dead() || h'.conns[k].phase.Removed?)
    requires h'.conns[c].phase.Removed? ==> forall id :: id in h'.nodes ==> h'.nodes[id] != c
    ensures RegistryOk(h')
  {
    forall id | id in h'.nodes
      ensures Claims(h'.conns[h'.nodes[id]], id) && !h'.conns[h'.nodes[id]].phase.Removed?
    {
      var k := h.nodes[id];
      assert Claims(h.conns[k], id) && ConnGrows(h.conns[k], h'.conns[k]);
    }
    forall k, id | 0 <= k < |h'.conns| && Claims(h'.conns[k], id)
      ensures Holds(h', k, id)
    {
      assert Claims(h.conns[k], id) && Holds(h, k, id);
      assert ConnGrows(h.conns[k], h'.conns[k]);
    }
  }

  lemma PruneRegistry(h: State, c: ConnId)
    requires RegistryOk(h) && CanPrune(h, c) && TaskOk(h, c)
    ensures RegistryOk(DoPrune(h, c))
  {
    PruneMoves(h, c);
    ShrinkRegistry(h, DoPrune(h, c), c);
  }

  lemma CleanupRegistry(h: State, c: ConnId)
    requires RegistryOk(h) && CanCleanup(h, c) && TaskOk(h, c)
    ensures RegistryOk(DoCleanup(h, c))
  {
    CleanupMoves(h, c);
    ShrinkRegistry(h, DoCleanup(h, c), c);
  }

  lemma ConnectRegistry(h: State)
    requires RegistryOk(h)
    ensures RegistryOk(DoConnect(h))
  {
    var h' := DoConnect(h);
    forall k, id | 0 <= k < |h'.conns| && Claims(h'.conns[k], id)
      ensures Holds(h', k, id)
    {
      assert k < |h.conns| && Claims(h.conns[k], id) && Holds(h, k, id);
    }
    forall id | id in h'.nodes
      ensures h'.nodes[id] < |h'.conns| && Claims(h'.conns[h'.nodes[id]], id)
    {
      assert Claims(h.conns[h.nodes[id]], id);
    }
  }
}
