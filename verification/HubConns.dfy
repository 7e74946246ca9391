/** Every step keeps each connection's ids and handler in order. */
module HubConns {
  import opened Wrappers
  import opened Protocol
  import opened Hub
  import opened HubInv
  import opened HubStable
  import opened HubGrows
  import Outbox

  // ---- Receiving a frame -------------------------------------------------------------------

  /** What may come of a frame: the decision speaks of this frame, and its checks were made. */
  predicate Fits(h: State, conn: Conn, s: Serial, text: Text, d: Decision) {
    d.Next? ==>
      match d.task
      case Replying(s', r, after) =>
        && s' == s && text.parsed.Some? && r.corr == text.parsed.value.corr
        && !r.kind.TargetForwarded? && after != SpawnAfter
        && (r.to == text.parsed.value.from || r.to in conn.owned)
        && (r.kind.Refusal? && IsAnswer(text.parsed.value) ==> text.parsed.value.from !in conn.owned)
      case Inserting(s', id) =>
        && s' == s && text.parsed.Some? && text.parsed.value.NodeRegistration? && text.parsed.value.from == id
        && ValidNodeId(id)
        && (id in conn.owned || |conn.owned| < MAX_NODE_IDS_PER_SOCKET)
        && (conn.owned == [] ==> TokenOk(h.token, text.parsed.value.token))
      case Routing(s', text') =>
        && s' == s && text' == text && text.parsed.Some? && text.parsed.value.from in conn.owned
        && !text.parsed.value.Broadcast? && !text.parsed.value.NodeRegistration?
      case Fanning(s', text', targets) =>
        && s' == s && text' == text && text.parsed.Some? && text.parsed.value.from in conn.owned
        && text.parsed.value.Broadcast? && targets == h.nodes - {text.parsed.value.from}
      case _ => false
  }

  lemma RouteFits(h: State, conn: Conn, s: Serial, text: Text)
    requires text.parsed.Some? && text.parsed.value.from in conn.owned && !text.parsed.value.NodeRegistration?
    ensures Fits(h, conn, s, text, Route(h, s, text))
  {
  }

  lemma HandleTextFits(h: State, conn: Conn, s: Serial, text: Text)
    ensures Fits(h, conn, s, text, HandleText(h, conn, s, text))
  {
    if text.parsed.Some? && text.parsed.value.from in conn.owned && !text.parsed.value.NodeRegistration? {
      RouteFits(h, conn, s, text);
    }
  }

  lemma EnactOk(h: State, c: ConnId, text: Text, d: Decision)
    requires AtRest(h, c) && FramesOk(h) && RoutedOk(h) && ConnsOk(h) && NodesOk(h)
    requires Fits(h, h.conns[c], |h.frames|, text, d)
    ensures var h' := Enact(Record(h, c, text), c, |h.frames|, d);
      OwnedOk(h', c) && TaskOk(h', c)
  {
    var s := |h.frames|;
    var h' := Enact(Record(h, c, text), c, s, d);
    EnactMoves(h, c, text, d);
    assert OwnedOk(h, c);
    OwnedOkStable(h, h', c);
    assert Mine(h', c, s) && h'.frames[s].text == text;
    assert h'.conns[c].owned == h.conns[c].owned;
    if text.parsed.Some? && text.parsed.value.from in h.conns[c].owned {
      OwnerIsEntitled(h, h', c, text.parsed.value.from);
    }
    if d.Next? && d.task.Fanning? {
      forall id | id in d.task.targets
        ensures d.task.targets[id] < |h'.conns| && Claims(h'.conns[d.task.targets[id]], id)
      {
        assert id in h.nodes && Claims(h.conns[h.nodes[id]], id);
        ClaimsStable(h, h', c, h.nodes[id], id);
      }
    }
  }

  /** Whatever a connection owns, it registered in an earlier frame. */
  lemma OwnerIsEntitled(h: State, h': State, c: ConnId, id: NodeId)
    requires c < |h.conns| && OwnedOk(h, c) && id in h.conns[c].owned && Grows(h, h')
    ensures Entitled(h', c, |h.frames|, id)
  {
    var r :| Registration(h, c, r, id);
    var a :| Authentication(h, c, a);
    assert Registration(h', c, r, id) && Authentication(h', c, a);
  }

  lemma ClaimsStable(h: State, h': State, c: ConnId, k: ConnId, id: NodeId)
    requires Moved(h, h', c) && k < |h.conns| && Claims(h.conns[k], id)
    ensures Claims(h'.conns[k], id)
  {
    assert ConnGrows(h.conns[k], h'.conns[k]);
  }

  // ---- The other steps of a handler --------------------------------------------------------

  lemma InsertOk(h: State, c: ConnId)
    requires CanInsert(h, c) && RoutedOk(h) && ConnsOk(h)
    ensures var h' := DoInsert(h, c); OwnedOk(h', c) && TaskOk(h', c)
  {
    assert OwnedOk(h, c) && TaskOk(h, c);
    InsertMoves(h, c);
    OwnedOkStable(h, DoInsert(h, c), c);
  }

  lemma AdoptOk(h: State, c: ConnId)
    requires CanAdopt(h, c) && RoutedOk(h) && ConnsOk(h)
    ensures var h' := DoAdopt(h, c); OwnedOk(h', c) && TaskOk(h', c)
  {
    var h', t := DoAdopt(h, c), h.conns[c].task;
    assert OwnedOk(h, c) && TaskOk(h, c);
    assert Registration(h', c, t.serial, t.id);
    assert h.conns[c].owned == [] ==> Authentication(h', c, t.serial);
    forall id | id in h.conns[c].owned
      ensures exists s :: Registration(h', c, s, id)
    {
      var s :| Registration(h, c, s, id);
      assert Registration(h', c, s, id);
    }
    if h.conns[c].owned != [] {
      var s :| Authentication(h, c, s);
      assert Authentication(h', c, s);
    }
  }

  lemma DecideOk(h: State, c: ConnId, v: Verdict)
    requires CanLookup(h, c) && RoutedOk(h) && OwnedOk(h, c) && TaskOk(h, c)
    ensures var h' := Decide(h, c, h.conns[c].task.serial, h.conns[c].task.text, v); OwnedOk(h', c) && TaskOk(h', c)
  {
    var s, text := h.conns[c].task.serial, h.conns[c].task.text;
    var h' := Decide(h, c, s, text, v);
    DecideMoves(h, c, s, text, v);
    OwnedOkStable(h, h', c);
    RelayableStable(h, h', c, s, text);
  }

  lemma FoundOk(h: State, c: ConnId)
    requires CanLookup(h, c) && OwnedOk(h, c) && TaskOk(h, c) && NodesOk(h)
    requires var e := h.conns[c].task.text.parsed.value; e.to in h.nodes && !(e.CommandRequest? && GridTargeted(e))
    ensures var t := h.conns[c].task;
      var h' := SetTask(h, c, Pushing(t.serial, t.text, h.nodes[t.text.parsed.value.to]));
      OwnedOk(h', c) && TaskOk(h', c)
  {
    var t := h.conns[c].task;
    var to := t.text.parsed.value.to;
    var h' := SetTask(h, c, Pushing(t.serial, t.text, h.nodes[to]));
    SetTaskMoves(h, c, Pushing(t.serial, t.text, h.nodes[to]));
    OwnedOkStable(h, h', c);
    RelayableStable(h, h', c, t.serial, t.text);
    ClaimsStable(h, h', c, h.nodes[to], to);
  }

  lemma LookupOk(h: State, c: ConnId)
    requires CanLookup(h, c) && RoutedOk(h) && ConnsOk(h) && NodesOk(h)
    ensures var h' := DoLookup(h, c); OwnedOk(h', c) && TaskOk(h', c)
  {
    assert OwnedOk(h, c) && TaskOk(h, c);
    var e := h.conns[c].task.text.parsed.value;
    if e.CommandRequest? && GridTargeted(e) {
      DecideOk(h, c, if h.bridge then Bridged else NoBridge);
    } else if e.to in h.nodes {
      FoundOk(h, c);
    } else {
      DecideOk(h, c, Refused(false));
    }
  }

  lemma PushDestOk(h: State, c: ConnId, r: Outbox.PushResult)
    requires CanPush(h, c, r) && RoutedOk(h) && ConnsOk(h)
    ensures var h' := DoPush(h, c, r); OwnedOk(h', c) && TaskOk(h', c)
  {
    var h' := DoPush(h, c, r);
    assert OwnedOk(h, c) && TaskOk(h, c);
    PushDestMoves(h, c, r);
    OwnedOkStable(h, h', c);
    RelayableStable(h, h', c, h.conns[c].task.serial, h.conns[c].task.text);
  }

  lemma PruneOk(h: State, c: ConnId)
    requires CanPrune(h, c) && ConnsOk(h) && JobsOk(h)
    ensures var h' := DoPrune(h, c); OwnedOk(h', c) && TaskOk(h', c)
  {
    var h' := DoPrune(h, c);
    assert OwnedOk(h, c) && TaskOk(h, c);
    PruneMoves(h, c);
    OwnedOkStable(h, h', c);
    RelayableStable(h, h', c, h.conns[c].task.serial, h.conns[c].task.text);
    assert h.conns[c].task.serial !in h.jobs;
  }

  lemma IdleOk(h: State, h': State, c: ConnId)
    requires Moved(h, h', c) && c < |h.conns| && OwnedOk(h, c)
    requires h'.conns[c].owned == h.conns[c].owned && h'.conns[c].task.Idle?
    ensures OwnedOk(h', c) && TaskOk(h', c)
  {
    OwnedOkStable(h, h', c);
  }

  /** The reply chosen for a verdict says what the verdict says. */
  lemma VerdictReplyOk(h: State, h': State, c: ConnId)
    requires CanSettle(h, c) && TaskOk(h, c) && Mine(h', c, h.conns[c].task.serial)
    requires h'.frames == h.frames && h'.routed == h.routed && h'.verdicts == h.verdicts && h'.jobs == h.jobs
    requires h'.conns[c].phase.Running?
    requires var t := h.conns[c].task; h'.conns[c].task == AfterVerdict(t.serial, t.text.parsed.value, t.verdict)
    ensures TaskOk(h', c)
  {
  }

  lemma SettleOk(h: State, c: ConnId)
    requires CanSettle(h, c) && ConnsOk(h)
    ensures var h' := DoSettle(h, c); OwnedOk(h', c) && TaskOk(h', c)
  {
    assert OwnedOk(h, c) && TaskOk(h, c);
    SettleMoves(h, c);
    OwnedOkStable(h, DoSettle(h, c), c);
    VerdictReplyOk(h, DoSettle(h, c), c);
  }

  lemma SendReplyOk(h: State, c: ConnId, r: Outbox.PushResult)
    requires CanReply(h, c, r) && ConnsOk(h)
    ensures var h' := DoReply(h, c, r); OwnedOk(h', c) && TaskOk(h', c)
  {
    var h' := DoReply(h, c, r);
    assert OwnedOk(h, c) && TaskOk(h, c);
    ReplyMoves(h, c, r);
    assert h'.conns[c].owned == h.conns[c].owned && h'.jobs == h.jobs;
    if h.conns[c].task.after != SpawnAfter {
      IdleOk(h, h', c);
    } else {
      OwnedOkStable(h, h', c);
      assert h'.conns[c].task == Spawning(h.conns[c].task.serial) && h'.conns[c].phase.Running?;
    }
  }

  lemma FanOk(h: State, c: ConnId, id: NodeId, r: Outbox.PushResult)
    requires CanFan(h, c, id, r) && ConnsOk(h)
    ensures var h' := DoFan(h, c, id, r); OwnedOk(h', c) && TaskOk(h', c)
  {
    var h', t := DoFan(h, c, id, r), h.conns[c].task;
    assert OwnedOk(h, c) && TaskOk(h, c);
    FanMoves(h, c, id, r);
    OwnedOkStable(h, h', c);
    RelayableStable(h, h', c, t.serial, t.text);
    forall k | k in t.targets - {id}
      ensures Claims(h'.conns[t.targets[k]], k)
    {
      assert ConnGrows(h.conns[t.targets[k]], h'.conns[t.targets[k]]);
    }
  }

  // ---- All connections ---------------------------------------------------------------------

  /** The serial a handler is deciding on, and what its step must do about it. */
  predicate StaysOrDecides(h: State, h': State, c: ConnId) {
    c < |h.conns| && (h.conns[c].task.Routing? || h.conns[c].task.Pushing?) ==>
      h.conns[c].task.serial in h'.verdicts || Deciding(h', h.conns[c].task.serial)
  }

  /** If the actor is in order after its step, everyone is. */
  lemma ConnsKept(h: State, h': State, c: ConnId)
    requires ConnsOk(h) && NoneForgotten(h) && FramesOk(h) && Moved(h, h', c)
    requires c < |h.conns| ==> OwnedOk(h', c) && TaskOk(h', c)
    requires h'.routed == h.routed && StaysOrDecides(h, h', c)
    ensures ConnsOk(h') && NoneForgotten(h')
  {
    OthersKept(h, h', c);
    forall s | s in h'.routed && s !in h'.verdicts
      ensures Deciding(h', s)
    {
      assert Deciding(h, s);
    }
  }

  lemma ReceiveConns(h: State, c: ConnId, text: Text, d: Decision)
    requires AtRest(h, c) && FramesOk(h) && RoutedOk(h) && ConnsOk(h) && NoneForgotten(h) && NodesOk(h)
    requires Fits(h, h.conns[c], |h.frames|, text, d)
    ensures var h' := Enact(Record(h, c, text), c, |h.frames|, d);
      ConnsOk(h') && NoneForgotten(h')
  {
    var h' := Enact(Record(h, c, text), c, |h.frames|, d);
    EnactMoves(h, c, text, d);
    EnactOk(h, c, text, d);
    OthersKept(h, h', c);
    forall s | s in h'.routed && s !in h'.verdicts
      ensures Deciding(h', s)
    {
      assert s in h.routed ==> Deciding(h, s);
    }
  }

  lemma ConnectGrows(h: State)
    ensures Grows(h, DoConnect(h))
  {
  }

  lemma ConnectOk(h: State)
    requires ConnsOk(h) && NoneForgotten(h) && FramesOk(h)
    ensures ConnsOk(DoConnect(h)) && NoneForgotten(DoConnect(h))
  {
    ConnectGrows(h);
    OthersKept(h, DoConnect(h), |h.conns|);
    forall s | s in h.routed && s !in h.verdicts
      ensures Deciding(DoConnect(h), s)
    {
      assert Deciding(h, s);
    }
  }
}
