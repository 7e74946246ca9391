/** History only grows, and what the invariant says about the past stays true as it grows. */
module HubStable {
  import opened Protocol
  import opened Hub
  import opened HubInv

  /** A connection moves on: ids are only added, and death and removal are final. */
  predicate ConnGrows(a: Conn, b: Conn) {
    && a.owned <= b.owned
    && (a.kicked ==> b.kicked) && (a.closed ==> b.closed)
    && (a.phase.Removed? ==> b.phase.Removed?)
    && (a.task.Adopting? ==> Claims(b, a.task.id))
  }

  ghost predicate Grows(h: State, h': State) {
    && h'.token == h.token
    && h.frames <= h'.frames && h.log <= h'.log
    && |h.conns| <= |h'.conns|
    && (forall c :: 0 <= c < |h.conns| ==> ConnGrows(h.conns[c], h'.conns[c]))
    && (forall s :: s in h.verdicts ==> s in h'.verdicts && h'.verdicts[s] == h.verdicts[s])
    && h.routed <= h'.routed
    && (forall s :: s in h'.routed && s < |h.frames| ==> s in h.routed)
    && h.trusted <= h'.trusted
    && (forall s :: s in h'.trusted && s < |h.frames| ==> s in h.trusted)
    && h.jobs.Keys <= h'.jobs.Keys
  }

  lemma ClaimsOtherStable(a: Conn, b: Conn, id: NodeId)
    requires ConnGrows(a, b) && ClaimsOther(a, id)
    ensures ClaimsOther(b, id)
  {
    var other :| Claims(a, other) && other != id;
    assert Claims(b, other);
  }

  lemma EntitledStable(h: State, h': State, c: ConnId, s: Serial, id: NodeId)
    requires Grows(h, h') && Entitled(h, c, s, id)
    ensures Entitled(h', c, s, id)
  {
    var r: Serial :| r < s && Registration(h, c, r, id);
    var a: Serial :| a < s && Authentication(h, c, a);
    assert Registration(h', c, r, id) && Authentication(h', c, a);
  }

  lemma RelayableStable(h: State, h': State, c: ConnId, s: Serial, text: Text)
    requires Grows(h, h') && Relayable(h, c, s, text)
    ensures Relayable(h', c, s, text)
  {
    assert ConnGrows(h.conns[c], h'.conns[c]);
    EntitledStable(h, h', c, s, text.parsed.value.from);
  }

  lemma ReplyOkStable(h: State, h': State, s: Serial, r: Reply)
    requires Grows(h, h') && ReplyOk(h, s, r)
    ensures ReplyOk(h', s, r)
  {
    if h.frames[s].conn < |h.conns| {
      assert ConnGrows(h.conns[h.frames[s].conn], h'.conns[h.frames[s].conn]);
    }
  }

  lemma DeliveryOkStable(h: State, h': State, d: Delivery)
    requires Grows(h, h') && DeliveryOk(h, d)
    ensures DeliveryOk(h', d)
  {
    match d.message
    case Relay(s, text) =>
      RelayableStable(h, h', h.frames[s].conn, s, text);
      assert ConnGrows(h.conns[d.dest], h'.conns[d.dest]);
      if IsBroadcast(h, s) {
        ClaimsOtherStable(h.conns[d.dest], h'.conns[d.dest], text.parsed.value.from);
      }
    case HubReply(s, r) => ReplyOkStable(h, h', s, r);
    case GridReply(s, e) => assert ConnGrows(h.conns[d.dest], h'.conns[d.dest]);
    case _ =>
  }

  lemma OwnedOkStable(h: State, h': State, c: ConnId)
    requires Grows(h, h') && c < |h.conns| && OwnedOk(h, c) && h'.conns[c].owned == h.conns[c].owned
    ensures OwnedOk(h', c)
  {
    forall id | id in h.conns[c].owned
      ensures exists s :: Registration(h', c, s, id)
    {
      var s :| Registration(h, c, s, id);
      assert Registration(h', c, s, id);
    }
    if h.conns[c].owned != [] {
      var s :| Authentication(h, c, s);
      assert Authentication(h', c, s);
    }
  }

  /** Nothing about the handler of a connection changed; at most its queue died. */
  predicate SameConn(a: Conn, b: Conn) {
    a.owned == b.owned && a.task == b.task && a.phase == b.phase && (a.kicked ==> b.kicked) && (a.closed ==> b.closed)
  }

  lemma TaskOkStable(h: State, h': State, c: ConnId)
    requires Grows(h, h') && c < |h.conns| && TaskOk(h, c) && SameConn(h.conns[c], h'.conns[c])
    requires forall s :: s in h'.verdicts && Mine(h', c, s) ==> s in h.verdicts
    requires forall s :: s in h'.jobs && Mine(h', c, s) ==> s in h.jobs
    ensures TaskOk(h', c)
  {
    match h.conns[c].task
    case Idle =>
    case Inserting(s, id) =>
    case Adopting(s, id) =>
    case Routing(s, text) => RelayableStable(h, h', c, s, text);
    case Pushing(s, text, dest) =>
      RelayableStable(h, h', c, s, text);
      assert ConnGrows(h.conns[dest], h'.conns[dest]);
    case Pruning(s, text) => RelayableStable(h, h', c, s, text);
    case Settling(s, text, v) => RelayableStable(h, h', c, s, text);
    case Replying(s, r, after) => ReplyOkStable(h, h', s, r);
    case Spawning(s) =>
    case Fanning(s, text, targets) =>
      RelayableStable(h, h', c, s, text);
      forall id | id in targets
        ensures targets[id] < |h'.conns| && Claims(h'.conns[targets[id]], id)
      {
        assert ConnGrows(h.conns[targets[id]], h'.conns[targets[id]]);
      }
  }

  /** A step of `c` leaves the other connections in order. */
  lemma OthersKept(h: State, h': State, c: ConnId)
    requires ConnsOk(h) && Grows(h, h')
    requires forall k :: 0 <= k < |h.conns| && k != c ==> SameConn(h.conns[k], h'.conns[k])
    requires forall s :: s in h'.verdicts && s !in h.verdicts ==> Mine(h', c, s)
    requires forall s :: s in h'.jobs && s !in h.jobs ==> Mine(h', c, s)
    ensures forall k :: 0 <= k < |h.conns| && k != c ==> OwnedOk(h', k) && TaskOk(h', k)
  {
    forall k | 0 <= k < |h.conns| && k != c
      ensures OwnedOk(h', k) && TaskOk(h', k)
    {
      OwnedOkStable(h, h', k);
      TaskOkStable(h, h', k);
    }
  }

  lemma OldLogKept(h: State, h': State)
    requires LogOk(h) && Grows(h, h')
    ensures forall i :: 0 <= i < |h.log| ==> DeliveryOk(h', h'.log[i])
  {
    forall i | 0 <= i < |h.log|
      ensures DeliveryOk(h', h'.log[i])
    {
      DeliveryOkStable(h, h', h.log[i]);
    }
  }
}
