/** Each step only adds to the history, and moves one connection at a time. */
module HubGrows {
  import opened Protocol
  import opened Hub
  import opened HubInv
  import opened HubStable
  import Outbox

  /** `h'` extends `h`, and only connection `c` moved. */
  ghost predicate Moved(h: State, h': State, c: ConnId) {
    && Grows(h, h')
    && |h'.conns| == |h.conns|
    && (forall k :: 0 <= k < |h.conns| && k != c ==> SameConn(h.conns[k], h'.conns[k]))
    && (forall s :: s in h'.verdicts && s !in h.verdicts ==> Mine(h', c, s))
    && (forall s :: s in h'.jobs && s !in h.jobs ==> Mine(h', c, s))
  }

  // ---- Moves and how they combine ----------------------------------------------------------

  lemma PushMoves(h: State, dest: ConnId, m: Message, r: Outbox.PushResult)
    requires dest < |h.conns|
    ensures Moved(h, Push(h, dest, m, r), |h.conns|)
  {
  }

  lemma SetConnMoves(h: State, c: ConnId, conn: Conn)
    requires c < |h.conns| && ConnGrows(h.conns[c], conn)
    ensures Moved(h, h.(conns := h.conns[c := conn]), c)
  {
  }

  /** The registry and the statistics are not part of the history, and jobs may move on. */
  lemma Ignoring(h: State, h1: State, h2: State, c: ConnId)
    requires Moved(h, h1, c)
    requires h2 == h1.(nodes := h2.nodes, stats := h2.stats, silent := h2.silent, bridge := h2.bridge, jobs := h2.jobs)
    requires h1.jobs.Keys <= h2.jobs.Keys
    requires forall s :: s in h2.jobs && s !in h1.jobs ==> Mine(h2, c, s)
    ensures Moved(h, h2, c)
  {
  }

  lemma Then(h: State, h1: State, h2: State, c: ConnId)
    requires Moved(h, h1, c) && Moved(h1, h2, c)
    ensures Moved(h, h2, c)
  {
    forall k | 0 <= k < |h.conns|
      ensures ConnGrows(h.conns[k], h2.conns[k])
    {
      assert ConnGrows(h.conns[k], h1.conns[k]) && ConnGrows(h1.conns[k], h2.conns[k]);
    }
  }

  /** If nobody's handler moved, then nobody's but `c`'s did. */
  lemma Widen(h: State, h': State, c: ConnId)
    requires Moved(h, h', |h.conns|)
    requires h'.verdicts.Keys <= h.verdicts.Keys && h'.jobs.Keys <= h.jobs.Keys
    ensures Moved(h, h', c)
  {
  }

  lemma PushThenConn(h: State, dest: ConnId, m: Message, r: Outbox.PushResult, c: ConnId, conn: Conn)
    requires dest < |h.conns| && c < |h.conns| && ConnGrows(Push(h, dest, m, r).conns[c], conn)
    ensures var h1 := Push(h, dest, m, r); Moved(h, h1.(conns := h1.conns[c := conn]), c)
  {
    var h1 := Push(h, dest, m, r);
    PushMoves(h, dest, m, r);
    Widen(h, h1, c);
    SetConnMoves(h1, c, conn);
    Then(h, h1, h1.(conns := h1.conns[c := conn]), c);
  }

  /** Recording the verdict on the actor's own frame. */
  lemma VerdictMoves(h: State, h1: State, c: ConnId, s: Serial, v: Verdict)
    requires Moved(h, h1, c) && h1.verdicts == h.verdicts && Mine(h, c, s) && s !in h.verdicts
    ensures Moved(h, h1.(verdicts := h.verdicts[s := v]), c)
  {
  }

  // ---- The steps ---------------------------------------------------------------------------

  lemma EnactMoves(h: State, c: ConnId, text: Text, d: Decision)
    requires AtRest(h, c)
    requires forall s :: s in h.routed ==> s < |h.frames|
    ensures Moved(h, Enact(Record(h, c, text), c, |h.frames|, d), c)
  {
  }

  lemma InsertMoves(h: State, c: ConnId)
    requires CanInsert(h, c)
    ensures Moved(h, DoInsert(h, c), c)
  {
  }

  lemma AdoptMoves(h: State, c: ConnId)
    requires CanAdopt(h, c)
    ensures Moved(h, DoAdopt(h, c), c)
  {
    SetConnMoves(h, c, DoAdopt(h, c).conns[c]);
  }

  lemma SetTaskMoves(h: State, c: ConnId, t: Task)
    requires c < |h.conns| && !h.conns[c].task.Adopting?
    ensures Moved(h, SetTask(h, c, t), c)
  {
    SetConnMoves(h, c, h.conns[c].(task := t));
  }

  lemma DecideMoves(h: State, c: ConnId, s: Serial, text: Text, v: Verdict)
    requires Mine(h, c, s) && s !in h.verdicts && !h.conns[c].task.Adopting?
    ensures Moved(h, Decide(h, c, s, text, v), c)
  {
    SetTaskMoves(h, c, Settling(s, text, v));
    VerdictMoves(h, SetTask(h, c, Settling(s, text, v)), c, s, v);
  }

  lemma LookupMoves(h: State, c: ConnId)
    requires CanLookup(h, c) && TaskOk(h, c)
    ensures Moved(h, DoLookup(h, c), c)
  {
    var t := h.conns[c].task;
    var e := t.text.parsed.value;
    DecideMoves(h, c, t.serial, t.text, if h.bridge then Bridged else NoBridge);
    DecideMoves(h, c, t.serial, t.text, Refused(false));
    if e.to in h.nodes {
      SetTaskMoves(h, c, Pushing(t.serial, t.text, h.nodes[e.to]));
    }
  }

  lemma PushDestMoves(h: State, c: ConnId, r: Outbox.PushResult)
    requires CanPush(h, c, r) && TaskOk(h, c)
    ensures Moved(h, DoPush(h, c, r), c)
  {
    var t := h.conns[c].task;
    var h', m := DoPush(h, c, r), Relay(t.serial, t.text);
    PushThenConn(h, t.dest, m, r, c, h'.conns[c]);
    VerdictMoves(h, h'.(verdicts := h.verdicts), c, t.serial, VerdictOf(t.dest, r));
  }

  lemma PruneMoves(h: State, c: ConnId)
    requires CanPrune(h, c)
    ensures Moved(h, DoPrune(h, c), c)
  {
    var t := h.conns[c].task;
    SetTaskMoves(h, c, Settling(t.serial, t.text, Refused(false)));
    Ignoring(h, SetTask(h, c, Settling(t.serial, t.text, Refused(false))), DoPrune(h, c), c);
  }

  lemma SettleMoves(h: State, c: ConnId)
    requires CanSettle(h, c)
    ensures Moved(h, DoSettle(h, c), c)
  {
    var t := h.conns[c].task;
    var t' := AfterVerdict(t.serial, t.text.parsed.value, t.verdict);
    SetTaskMoves(h, c, t');
    Ignoring(h, SetTask(h, c, t'), DoSettle(h, c), c);
  }

  lemma ReplyMoves(h: State, c: ConnId, r: Outbox.PushResult)
    requires CanReply(h, c, r) && TaskOk(h, c)
    ensures Moved(h, DoReply(h, c, r), c)
  {
    var t := h.conns[c].task;
    var m := HubReply(t.serial, t.reply);
    PushThenConn(h, c, m, r, c, Replied(Push(h, c, m, r).conns[c], t.serial, t.after));
  }

  lemma SpawnMoves(h: State, c: ConnId)
    requires CanSpawn(h, c) && TaskOk(h, c)
    ensures Moved(h, DoSpawn(h, c), c)
  {
    SetTaskMoves(h, c, Idle);
    Ignoring(h, SetTask(h, c, Idle), DoSpawn(h, c), c);
  }

  lemma FanMoves(h: State, c: ConnId, id: NodeId, r: Outbox.PushResult)
    requires CanFan(h, c, id, r)
    ensures Moved(h, DoFan(h, c, id, r), c)
  {
    var t := h.conns[c].task;
    PushThenConn(h, t.targets[id], Relay(t.serial, t.text), r, c, DoFan(h, c, id, r).conns[c]);
  }

  lemma CleanupMoves(h: State, c: ConnId)
    requires CanCleanup(h, c)
    ensures Moved(h, DoCleanup(h, c), c)
  {
    var conn := h.conns[c].(phase := Removed(h.conns[c].phase.graceful));
    SetConnMoves(h, c, conn);
    Ignoring(h, h.(conns := h.conns[c := conn]), DoCleanup(h, c), c);
  }

  lemma AnswerMoves(h: State, s: Serial, status: string, r: Outbox.PushResult)
    requires CanAnswer(h, s, r)
    ensures Moved(h, DoAnswer(h, s, status, r), |h.conns|)
  {
    var m := GridReply(s, GridAnswer(h.frames[s].text.parsed.value, status));
    PushMoves(h, h.frames[s].conn, m, r);
    Ignoring(h, Push(h, h.frames[s].conn, m, r), DoAnswer(h, s, status, r), |h.conns|);
  }

  lemma RetryMoves(h: State, s: Serial, r: Outbox.PushResult)
    requires CanRetry(h, s, r)
    ensures Moved(h, DoRetry(h, s, r), |h.conns|)
  {
    var m := GridReply(s, h.jobs[s].envelope);
    PushMoves(h, h.jobs[s].dest, m, r);
    Ignoring(h, Push(h, h.jobs[s].dest, m, r), DoRetry(h, s, r), |h.conns|);
  }
}
