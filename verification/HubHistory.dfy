/** Every step keeps the history honest: where messages came from, and that each is queued once. */
module HubHistory {
  import opened Wrappers
  import opened Protocol
  import opened Hub
  import opened HubInv
  import opened HubStable
  import opened HubGrows
  import Outbox

  predicate SameHistory(h: State, h': State) {
    && h'.frames == h.frames && h'.log == h.log && h'.routed == h.routed && h'.trusted == h.trusted
    && h'.verdicts == h.verdicts && h'.jobs == h.jobs
  }

  lemma CopiesAppend(log: seq<Delivery>, d: Delivery, s: Serial)
    ensures Copies(log + [d], s) == Copies(log, s) + if d.message.Relay? && d.message.serial == s then 1 else 0
    ensures Responses(log + [d], s) == Responses(log, s) + if d.message.GridReply? && d.message.serial == s then 1 else 0
  {
    assert (log + [d])[..|log|] == log;
  }

  lemma JobOkStable(h: State, h': State, s: Serial)
    requires Grows(h, h') && s in h.jobs && JobOk(h, s) && s in h'.jobs && h'.jobs[s] == h.jobs[s]
    ensures JobOk(h', s)
  {
    if h.jobs[s].Redirecting? {
      assert ConnGrows(h.conns[h.jobs[s].dest], h'.conns[h.jobs[s].dest]);
    }
  }

  /** Nothing was received, queued or decided. */
  lemma HistoryQuiet(h: State, h': State)
    requires HistoryOk(h) && Grows(h, h') && SameHistory(h, h')
    ensures HistoryOk(h')
  {
    OldLogKept(h, h');
    forall s | s in h'.jobs ensures JobOk(h', s) { JobOkStable(h, h', s); }
  }

  lemma ReceiveHistory(h: State, c: ConnId, text: Text, d: Decision)
    requires HistoryOk(h) && AtRest(h, c)
    requires d.Next? && d.task.Routing? ==>
      text.parsed.Some? && !text.parsed.value.NodeRegistration? && !text.parsed.value.Broadcast?
    ensures HistoryOk(Enact(Record(h, c, text), c, |h.frames|, d))
  {
    var h' := Enact(Record(h, c, text), c, |h.frames|, d);
    EnactMoves(h, c, text, d);
    OldLogKept(h, h');
    forall s | s in h'.jobs ensures JobOk(h', s) { JobOkStable(h, h', s); }
    forall s | !IsBroadcast(h', s)
      ensures Copies(h'.log, s) == if s in h'.verdicts && h'.verdicts[s].Queued? then 1 else 0
    {
      assert !IsBroadcast(h, s);
    }
  }

  /** The verdict on a routed frame, without queueing it. */
  lemma DecideHistory(h: State, h': State, c: ConnId, s: Serial, v: Verdict)
    requires HistoryOk(h) && Moved(h, h', c) && Mine(h, c, s) && s in h.routed && s !in h.verdicts && !v.Queued?
    requires SameHistory(h, h'.(verdicts := h.verdicts)) && h'.verdicts == h.verdicts[s := v]
    ensures HistoryOk(h')
  {
    OldLogKept(h, h');
    forall s | s in h'.jobs ensures JobOk(h', s) { JobOkStable(h, h', s); }
  }

  lemma LookupHistory(h: State, c: ConnId)
    requires HistoryOk(h) && CanLookup(h, c) && TaskOk(h, c)
    ensures HistoryOk(DoLookup(h, c))
  {
    var t := h.conns[c].task;
    var e := t.text.parsed.value;
    if e.CommandRequest? && GridTargeted(e) {
      DecidedHistory(h, c, if h.bridge then Bridged else NoBridge);
    } else if e.to in h.nodes {
      SetTaskMoves(h, c, Pushing(t.serial, t.text, h.nodes[e.to]));
      HistoryQuiet(h, SetTask(h, c, Pushing(t.serial, t.text, h.nodes[e.to])));
    } else {
      DecidedHistory(h, c, Refused(false));
    }
  }

  lemma DecidedHistory(h: State, c: ConnId, v: Verdict)
    requires HistoryOk(h) && CanLookup(h, c) && TaskOk(h, c) && !v.Queued?
    ensures HistoryOk(Decide(h, c, h.conns[c].task.serial, h.conns[c].task.text, v))
  {
    var t := h.conns[c].task;
    DecideMoves(h, c, t.serial, t.text, v);
    DecideHistory(h, Decide(h, c, t.serial, t.text, v), c, t.serial, v);
  }

  /** One message is added to the log. */
  lemma QueueHistory(h: State, h': State, d: Delivery)
    requires LogOk(h) && Grows(h, h') && h'.log == h.log + [d] && DeliveryOk(h', d)
    ensures LogOk(h')
  {
    OldLogKept(h, h');
  }

  /** A message other than a relayed frame or a bridge response changes no count. */
  lemma PlainQueueHistory(h: State, h': State, d: Delivery)
    requires HistoryOk(h) && Grows(h, h') && h'.log == h.log + [d] && DeliveryOk(h', d)
    requires SameHistory(h, h'.(log := h.log))
    requires !d.message.GridReply? && (d.message.Relay? ==> IsBroadcast(h, d.message.serial))
    ensures HistoryOk(h')
  {
    QueueHistory(h, h', d);
    forall s | s in h'.jobs ensures JobOk(h', s) { JobOkStable(h, h', s); }
    forall s ensures Responses(h'.log, s) == Responses(h.log, s) { CopiesAppend(h.log, d, s); }
    forall s | !IsBroadcast(h', s) ensures Copies(h'.log, s) == Copies(h.log, s) { CopiesAppend(h.log, d, s); }
  }

  lemma PushHistory(h: State, c: ConnId, r: Outbox.PushResult)
    requires HistoryOk(h) && CanPush(h, c, r) && TaskOk(h, c)
    ensures HistoryOk(DoPush(h, c, r))
  {
    var t, h' := h.conns[c].task, DoPush(h, c, r);
    PushDestMoves(h, c, r);
    if r.Ok? {
      QueuedHistory(h, h', c);
    } else {
      DecideHistory(h, h', c, t.serial, VerdictOf(t.dest, r));
    }
  }

  /** The verdict `Queued` comes with exactly one copy in the log. */
  lemma QueuedHistory(h: State, h': State, c: ConnId)
    requires HistoryOk(h) && CanPush(h, c, Outbox.Ok) && TaskOk(h, c) && Moved(h, h', c)
    requires var t := h.conns[c].task;
      && h'.log == h.log + [Delivery(t.dest, Relay(t.serial, t.text))]
      && h'.verdicts == h.verdicts[t.serial := Queued(t.dest)]
      && SameHistory(h, h'.(log := h.log, verdicts := h.verdicts))
    ensures HistoryOk(h')
  {
    var t := h.conns[c].task;
    var d := Delivery(t.dest, Relay(t.serial, t.text));
    RelayableStable(h, h', c, t.serial, t.text);
    assert ConnGrows(h.conns[t.dest], h'.conns[t.dest]);
    QueueHistory(h, h', d);
    forall s | s in h'.jobs ensures JobOk(h', s) { JobOkStable(h, h', s); }
    OneMoreCopy(h, h', d);
  }

  lemma OneMoreCopy(h: State, h': State, d: Delivery)
    requires OnceEach(h) && d.message.Relay? && h'.log == h.log + [d] && h'.frames == h.frames && h'.jobs == h.jobs
    requires d.message.serial !in h.verdicts && h'.verdicts == h.verdicts[d.message.serial := Queued(d.dest)]
    ensures OnceEach(h')
  {
    forall s
      ensures Responses(h'.log, s) == Responses(h.log, s)
      ensures Copies(h'.log, s) == Copies(h.log, s) + if s == d.message.serial then 1 else 0
    {
      CopiesAppend(h.log, d, s);
    }
  }

  lemma ReplyHistory(h: State, c: ConnId, r: Outbox.PushResult)
    requires HistoryOk(h) && CanReply(h, c, r) && TaskOk(h, c)
    ensures HistoryOk(DoReply(h, c, r))
  {
    var t, h' := h.conns[c].task, DoReply(h, c, r);
    ReplyMoves(h, c, r);
    if r.Ok? {
      ReplyOkStable(h, h', t.serial, t.reply);
      PlainQueueHistory(h, h', Delivery(c, HubReply(t.serial, t.reply)));
    } else {
      HistoryQuiet(h, h');
    }
  }

  lemma FanHistory(h: State, c: ConnId, id: NodeId, r: Outbox.PushResult)
    requires HistoryOk(h) && CanFan(h, c, id, r) && TaskOk(h, c)
    ensures HistoryOk(DoFan(h, c, id, r))
  {
    var t, h' := h.conns[c].task, DoFan(h, c, id, r);
    FanMoves(h, c, id, r);
    if r.Ok? {
      RelayableStable(h, h', c, t.serial, t.text);
      assert ConnGrows(h.conns[t.targets[id]], h'.conns[t.targets[id]]);
      assert Claims(h'.conns[t.targets[id]], id);
      PlainQueueHistory(h, h', Delivery(t.targets[id], Relay(t.serial, t.text)));
    } else {
      HistoryQuiet(h, h');
    }
  }

  lemma ControlHistory(h: State, c: ConnId, m: Message, r: Outbox.PushResult)
    requires HistoryOk(h) && CanControl(h, c, m, r)
    ensures HistoryOk(Push(h, c, m, r))
  {
    PushMoves(h, c, m, r);
    if r.Ok? {
      PlainQueueHistory(h, Push(h, c, m, r), Delivery(c, m));
    } else {
      HistoryQuiet(h, Push(h, c, m, r));
    }
  }

  // ---- Bridge jobs -------------------------------------------------------------------------

  /** A job moves on without its response being queued. */
  lemma JobHistory(h: State, h': State, s: Serial, job: Job)
    requires HistoryOk(h) && Grows(h, h') && SameHistory(h, h'.(jobs := h.jobs))
    requires h'.jobs == h.jobs[s := job] && JobOk(h', s) && job != Finished(true)
    requires s in h.jobs ==> h.jobs[s] != Finished(true)
    ensures HistoryOk(h')
  {
    OldLogKept(h, h');
    forall k | k in h'.jobs ensures JobOk(h', k) {
      if k != s { JobOkStable(h, h', k); }
    }
  }

  /** A job ends with its response queued. */
  lemma AnsweredHistory(h: State, h': State, s: Serial, dest: ConnId, e: Envelope)
    requires HistoryOk(h) && Grows(h, h') && s in h.jobs && h.jobs[s] != Finished(true)
    requires h'.log == h.log + [Delivery(dest, GridReply(s, e))] && dest < |h.conns| && Answers(h, s, e)
    requires dest == h.frames[s].conn || Claims(h.conns[dest], e.to)
    requires h'.jobs == h.jobs[s := Finished(true)] && SameHistory(h, h'.(log := h.log, jobs := h.jobs))
    ensures HistoryOk(h')
  {
    var d := Delivery(dest, GridReply(s, e));
    assert JobOk(h, s);
    assert ConnGrows(h.conns[dest], h'.conns[dest]);
    QueueHistory(h, h', d);
    forall k | k in h'.jobs ensures JobOk(h', k) {
      if k != s { JobOkStable(h, h', k); }
    }
    OneMoreResponse(h, h', d, s);
  }

  lemma OneMoreResponse(h: State, h': State, d: Delivery, s: Serial)
    requires OnceEach(h) && d.message.GridReply? && d.message.serial == s && h'.log == h.log + [d]
    requires s in h.jobs && h.jobs[s] != Finished(true) && h'.jobs == h.jobs[s := Finished(true)]
    requires h'.frames == h.frames && h'.verdicts == h.verdicts
    ensures OnceEach(h')
  {
    forall k
      ensures Copies(h'.log, k) == Copies(h.log, k)
      ensures Responses(h'.log, k) == Responses(h.log, k) + if k == s then 1 else 0
    {
      CopiesAppend(h.log, d, k);
    }
  }

  lemma SpawnHistory(h: State, c: ConnId)
    requires HistoryOk(h) && CanSpawn(h, c) && TaskOk(h, c)
    ensures HistoryOk(DoSpawn(h, c))
  {
    SpawnMoves(h, c);
    JobHistory(h, DoSpawn(h, c), h.conns[c].task.serial, Answering);
  }

  lemma AnswerHistory(h: State, s: Serial, status: string, r: Outbox.PushResult)
    requires HistoryOk(h) && CanAnswer(h, s, r)
    ensures HistoryOk(DoAnswer(h, s, status, r))
  {
    var e, h' := GridAnswer(h.frames[s].text.parsed.value, status), DoAnswer(h, s, status, r);
    AnswerMoves(h, s, status, r);
    assert JobOk(h, s);
    if r.Ok? {
      AnsweredHistory(h, h', s, h.frames[s].conn, e);
    } else {
      JobHistory(h, h', s, Retrying(e));
    }
  }

  lemma RelocateHistory(h: State, s: Serial)
    requires HistoryOk(h) && NodesOk(h) && CanRelocate(h, s)
    ensures HistoryOk(DoRelocate(h, s))
  {
    assert JobOk(h, s);
    JobHistory(h, DoRelocate(h, s), s, DoRelocate(h, s).jobs[s]);
  }

  lemma RetryHistory(h: State, s: Serial, r: Outbox.PushResult)
    requires HistoryOk(h) && CanRetry(h, s, r)
    ensures HistoryOk(DoRetry(h, s, r))
  {
    RetryMoves(h, s, r);
    assert JobOk(h, s);
    if r.Ok? {
      AnsweredHistory(h, DoRetry(h, s, r), s, h.jobs[s].dest, h.jobs[s].envelope);
    } else {
      JobHistory(h, DoRetry(h, s, r), s, Finished(false));
    }
  }
}
