/** The hub's invariant holds in every reachable state, and what that means. */
module HubProofs {
  import opened Protocol
  import opened Hub
  import opened HubInv
  import opened HubGrows
  import opened HubConns
  import opened HubHistory
  import opened HubRegistry
  import opened HubBalance
  import Outbox

  // ---- Each step keeps the invariant -------------------------------------------------------

  lemma ConnectInv(h: State)
    requires Inv(h)
    ensures Inv(DoConnect(h))
  {
    ConnectGrows(h);
    ConnectOk(h);
    HistoryQuiet(h, DoConnect(h));
    ConnectRegistry(h);
    ConnectBalance(h);
  }

  lemma ReceiveInv(h: State, c: ConnId, text: Text)
    requires Inv(h) && AtRest(h, c)
    ensures Inv(DoReceive(h, c, text))
  {
    var d := HandleText(h, h.conns[c], |h.frames|, text);
    var h' := Enact(Record(h, c, text), c, |h.frames|, d);
    HandleTextFits(h, h.conns[c], |h.frames|, text);
    EnactInv(h, c, text, d);
  }

  lemma EnactInv(h: State, c: ConnId, text: Text, d: Decision)
    requires Inv(h) && AtRest(h, c) && Fits(h, h.conns[c], |h.frames|, text, d)
    ensures Inv(Enact(Record(h, c, text), c, |h.frames|, d))
  {
    var h' := Enact(Record(h, c, text), c, |h.frames|, d);
    EnactMoves(h, c, text, d);
    ReceiveConns(h, c, text, d);
    ReceiveHistory(h, c, text, d);
    RegistrySame(h, h', c);
    ReceiveBalance(h, c, text, d);
  }

  lemma InsertInv(h: State, c: ConnId)
    requires Inv(h) && CanInsert(h, c)
    ensures Inv(DoInsert(h, c))
  {
    assert TaskOk(h, c);
    InsertMoves(h, c);
    InsertOk(h, c);
    ConnsKept(h, DoInsert(h, c), c);
    HistoryQuiet(h, DoInsert(h, c));
    InsertRegistry(h, c);
    BalanceQuiet(h, DoInsert(h, c), c);
  }

  lemma AdoptInv(h: State, c: ConnId)
    requires Inv(h) && CanAdopt(h, c)
    ensures Inv(DoAdopt(h, c))
  {
    AdoptMoves(h, c);
    AdoptOk(h, c);
    ConnsKept(h, DoAdopt(h, c), c);
    HistoryQuiet(h, DoAdopt(h, c));
    AdoptRegistry(h, c);
    BalanceQuiet(h, DoAdopt(h, c), c);
  }

  lemma LookupInv(h: State, c: ConnId)
    requires Inv(h) && CanLookup(h, c)
    ensures Inv(DoLookup(h, c))
  {
    assert TaskOk(h, c);
    LookupMoves(h, c);
    LookupOk(h, c);
    LookupFrame(h, c);
    ConnsKept(h, DoLookup(h, c), c);
    LookupHistory(h, c);
    RegistrySame(h, DoLookup(h, c), c);
    BalanceQuiet(h, DoLookup(h, c), c);
  }

  lemma DecideFrame(h: State, c: ConnId, v: Verdict)
    requires CanLookup(h, c)
    ensures var h' := Decide(h, c, h.conns[c].task.serial, h.conns[c].task.text, v);
      StillHandling(h, h', c) && StaysOrDecides(h, h', c)
  {
  }

  lemma LookupFrame(h: State, c: ConnId)
    requires CanLookup(h, c) && TaskOk(h, c)
    ensures StillHandling(h, DoLookup(h, c), c) && StaysOrDecides(h, DoLookup(h, c), c)
  {
    var e := h.conns[c].task.text.parsed.value;
    if e.CommandRequest? && GridTargeted(e) {
      DecideFrame(h, c, if h.bridge then Bridged else NoBridge);
    } else if e.to in h.nodes {
      assert DoLookup(h, c) == SetTask(h, c, Pushing(h.conns[c].task.serial, h.conns[c].task.text, h.nodes[e.to]));
    } else {
      DecideFrame(h, c, Refused(false));
    }
  }

  /** The handler goes on within its command; registry and statistics stay. */
  predicate StillHandling(h: State, h': State, c: ConnId)
    requires c < |h.conns|
  {
    && h'.nodes == h.nodes && h'.stats == h.stats && h'.silent == h.silent
    && |h'.conns| == |h.conns| && h'.conns[c].owned == h.conns[c].owned && !h'.conns[c].task.Adopting?
    && (h'.conns[c].phase.Removed? ==> h.conns[c].phase.Removed?)
    && h'.routed == h.routed
    && InFlight(h'.conns[c]) == InFlight(h.conns[c])
  }

  lemma PushDestInv(h: State, c: ConnId, r: Outbox.PushResult)
    requires Inv(h) && CanPush(h, c, r)
    ensures Inv(DoPush(h, c, r))
  {
    assert TaskOk(h, c);
    PushDestMoves(h, c, r);
    PushDestOk(h, c, r);
    PushFrame(h, c, r);
    ConnsKept(h, DoPush(h, c, r), c);
    PushHistory(h, c, r);
    RegistrySame(h, DoPush(h, c, r), c);
    BalanceQuiet(h, DoPush(h, c, r), c);
  }

  lemma PushFrame(h: State, c: ConnId, r: Outbox.PushResult)
    requires CanPush(h, c, r)
    ensures StillHandling(h, DoPush(h, c, r), c) && StaysOrDecides(h, DoPush(h, c, r), c)
  {
  }

  lemma PruneInv(h: State, c: ConnId)
    requires Inv(h) && CanPrune(h, c)
    ensures Inv(DoPrune(h, c))
  {
    assert TaskOk(h, c);
    PruneMoves(h, c);
    PruneOk(h, c);
    ConnsKept(h, DoPrune(h, c), c);
    HistoryQuiet(h, DoPrune(h, c));
    PruneRegistry(h, c);
    BalanceQuiet(h, DoPrune(h, c), c);
  }

  lemma SettleInv(h: State, c: ConnId)
    requires Inv(h) && CanSettle(h, c)
    ensures Inv(DoSettle(h, c))
  {
    assert TaskOk(h, c);
    SettleMoves(h, c);
    SettleOk(h, c);
    SettleFrame(h, c);
    ConnsKept(h, DoSettle(h, c), c);
    HistoryQuiet(h, DoSettle(h, c));
    RegistrySame(h, DoSettle(h, c), c);
    SettleBalance(h, c);
  }

  lemma SettleFrame(h: State, c: ConnId)
    requires CanSettle(h, c)
    ensures var h' := DoSettle(h, c);
      && SameHistory(h, h') && h'.nodes == h.nodes
      && h'.conns[c].owned == h.conns[c].owned && !h'.conns[c].task.Adopting?
      && h'.conns[c].phase == h.conns[c].phase
  {
  }

  lemma SendReplyInv(h: State, c: ConnId, r: Outbox.PushResult)
    requires Inv(h) && CanReply(h, c, r)
    ensures Inv(DoReply(h, c, r))
  {
    assert TaskOk(h, c);
    ReplyMoves(h, c, r);
    SendReplyOk(h, c, r);
    ReplyFrame(h, c, r);
    ConnsKept(h, DoReply(h, c, r), c);
    ReplyHistory(h, c, r);
    RegistrySame(h, DoReply(h, c, r), c);
    BalanceQuiet(h, DoReply(h, c, r), c);
  }

  lemma ReplyFrame(h: State, c: ConnId, r: Outbox.PushResult)
    requires CanReply(h, c, r)
    ensures StillHandling(h, DoReply(h, c, r), c)
  {
  }

  lemma SpawnInv(h: State, c: ConnId)
    requires Inv(h) && CanSpawn(h, c)
    ensures Inv(DoSpawn(h, c))
  {
    assert OwnedOk(h, c) && TaskOk(h, c);
    SpawnMoves(h, c);
    IdleOk(h, DoSpawn(h, c), c);
    ConnsKept(h, DoSpawn(h, c), c);
    SpawnHistory(h, c);
    RegistrySame(h, DoSpawn(h, c), c);
    BalanceQuiet(h, DoSpawn(h, c), c);
  }

  lemma FanInv(h: State, c: ConnId, id: NodeId, r: Outbox.PushResult)
    requires Inv(h) && CanFan(h, c, id, r)
    ensures Inv(DoFan(h, c, id, r))
  {
    assert TaskOk(h, c);
    FanMoves(h, c, id, r);
    FanOk(h, c, id, r);
    ConnsKept(h, DoFan(h, c, id, r), c);
    FanHistory(h, c, id, r);
    RegistrySame(h, DoFan(h, c, id, r), c);
    BalanceQuiet(h, DoFan(h, c, id, r), c);
  }

  /** The handler comes to rest, or the connection changes phase, with nothing recorded. */
  lemma RestInv(h: State, h': State, c: ConnId)
    requires Inv(h) && c < |h.conns| && Moved(h, h', c) && SameHistory(h, h')
    requires h'.stats == h.stats && h'.silent == h.silent
    requires h'.conns[c].owned == h.conns[c].owned && h'.conns[c].task.Idle? && InFlight(h.conns[c]) == 0
    requires !h.conns[c].task.Routing? && !h.conns[c].task.Pushing?
    requires RegistryOk(h')
    ensures Inv(h')
  {
    assert OwnedOk(h, c);
    IdleOk(h, h', c);
    ConnsKept(h, h', c);
    HistoryQuiet(h, h');
    BalanceQuiet(h, h', c);
  }

  lemma FanEndInv(h: State, c: ConnId)
    requires Inv(h) && CanFanEnd(h, c)
    ensures Inv(SetTask(h, c, Idle))
  {
    SetTaskMoves(h, c, Idle);
    RegistrySame(h, SetTask(h, c, Idle), c);
    RestInv(h, SetTask(h, c, Idle), c);
  }

  lemma ExitInv(h: State, c: ConnId)
    requires Inv(h) && AtRest(h, c)
    ensures Inv(Stop(h, c, false))
  {
    SetConnMoves(h, c, h.conns[c].(task := Idle, phase := Exited(false)));
    RegistrySame(h, Stop(h, c, false), c);
    RestInv(h, Stop(h, c, false), c);
  }

  lemma CleanupInv(h: State, c: ConnId)
    requires Inv(h) && CanCleanup(h, c)
    ensures Inv(DoCleanup(h, c))
  {
    assert TaskOk(h, c);
    CleanupMoves(h, c);
    CleanupRegistry(h, c);
    RestInv(h, DoCleanup(h, c), c);
  }

  lemma CloseFrameInv(h: State, c: ConnId, r: Outbox.PushResult)
    requires Inv(h) && CanCloseFrame(h, c, r)
    ensures Inv(DoCloseFrame(h, c, r))
  {
    assert TaskOk(h, c);
    SetConnMoves(h, c, DoCloseFrame(h, c, r).conns[c]);
    RegistrySame(h, DoCloseFrame(h, c, r), c);
    RestInv(h, DoCloseFrame(h, c, r), c);
  }

  /** Nobody's handler moves. */
  lemma OutsideInv(h: State, h': State)
    requires Inv(h) && Moved(h, h', |h.conns|) && HistoryOk(h')
    requires h'.nodes == h.nodes && h'.stats == h.stats && h'.silent == h.silent && h'.routed == h.routed
    ensures Inv(h')
  {
    ConnsKept(h, h', |h.conns|);
    RegistrySame(h, h', |h.conns|);
    BalanceQuiet(h, h', |h.conns|);
  }

  lemma ControlInv(h: State, c: ConnId, m: Message, r: Outbox.PushResult)
    requires Inv(h) && CanControl(h, c, m, r)
    ensures Inv(Push(h, c, m, r))
  {
    PushMoves(h, c, m, r);
    ControlHistory(h, c, m, r);
    OutsideInv(h, Push(h, c, m, r));
  }

  lemma AttachInv(h: State)
    requires Inv(h)
    ensures Inv(DoAttachBridge(h))
  {
    assert Moved(h, DoAttachBridge(h), |h.conns|);
    HistoryQuiet(h, DoAttachBridge(h));
    OutsideInv(h, DoAttachBridge(h));
  }

  lemma DieInv(h: State, c: ConnId)
    requires Inv(h) && c < |h.conns|
    ensures Inv(DoDie(h, c))
  {
    assert Moved(h, DoDie(h, c), |h.conns|);
    HistoryQuiet(h, DoDie(h, c));
    OutsideInv(h, DoDie(h, c));
  }

  lemma AnswerInv(h: State, s: Serial, status: string, r: Outbox.PushResult)
    requires Inv(h) && CanAnswer(h, s, r)
    ensures Inv(DoAnswer(h, s, status, r))
  {
    AnswerMoves(h, s, status, r);
    AnswerHistory(h, s, status, r);
    OutsideInv(h, DoAnswer(h, s, status, r));
  }

  lemma RelocateInv(h: State, s: Serial)
    requires Inv(h) && CanRelocate(h, s)
    ensures Inv(DoRelocate(h, s))
  {
    RelocateHistory(h, s);
    Ignoring(h, h, DoRelocate(h, s), |h.conns|);
    OutsideInv(h, DoRelocate(h, s));
  }

  lemma RetryInv(h: State, s: Serial, r: Outbox.PushResult)
    requires Inv(h) && CanRetry(h, s, r)
    ensures Inv(DoRetry(h, s, r))
  {
    RetryMoves(h, s, r);
    RetryHistory(h, s, r);
    OutsideInv(h, DoRetry(h, s, r));
  }

  lemma HandlerInv(h: State, step: Step)
    requires Inv(h) && Enabled(h, step)
    requires step.Receive? || step.Insert? || step.Adopt? || step.Lookup? || step.PushDest? || step.Prune? || step.Settle? || step.SendReply?
    ensures Inv(Apply(h, step))
  {
    match step
    case Receive(c, text) => ReceiveInv(h, c, text);
    case Insert(c) => InsertInv(h, c);
    case Adopt(c) => AdoptInv(h, c);
    case Lookup(c) => LookupInv(h, c);
    case PushDest(c, r) => PushDestInv(h, c, r);
    case Prune(c) => PruneInv(h, c);
    case Settle(c) => SettleInv(h, c);
    case SendReply(c, r) => SendReplyInv(h, c, r);
  }

  lemma StepKeepsInv(h: State, step: Step)
    requires Inv(h) && Enabled(h, step)
    ensures Inv(Apply(h, step))
  {
    match step
    case Connect => ConnectInv(h);
    case AttachBridge => AttachInv(h);
    case Spawn(c) => SpawnInv(h, c);
    case Fan(c, id, r) => FanInv(h, c, id, r);
    case FanEnd(c) => FanEndInv(h, c);
    case Control(c, m, r) => ControlInv(h, c, m, r);
    case Exit(c) => ExitInv(h, c);
    case Cleanup(c) => CleanupInv(h, c);
    case CloseFrame(c, r) => CloseFrameInv(h, c, r);
    case Die(c) => DieInv(h, c);
    case BridgeAnswer(s, status, r) => AnswerInv(h, s, status, r);
    case BridgeLookup(s) => RelocateInv(h, s);
    case BridgeRetry(s, r) => RetryInv(h, s, r);
    case _ => HandlerInv(h, step);
  }
}
