/** What a step can do at all: whose handler moves, what is decided, and what is queued. */
module HubEffects {
  import opened Protocol
  import opened Hub
  import Outbox

  /** The connection whose handler takes the step, or none of them. */
  function Actor(h: State, step: Step): ConnId {
    match step
    case Receive(c, _) => c
    case Insert(c) => c
    case Adopt(c) => c
    case Lookup(c) => c
    case PushDest(c, _) => c
    case Prune(c) => c
    case Settle(c) => c
    case SendReply(c, _) => c
    case Spawn(c) => c
    case Fan(c, _, _) => c
    case FanEnd(c) => c
    case Exit(c) => c
    case Cleanup(c) => c
    case CloseFrame(c, _) => c
    case _ => |h.conns|
  }

  /** Only the handler of `c` moved, and a new connection has nothing to do. */
  ghost predicate OthersStay(h: State, h': State, c: ConnId) {
    && |h.conns| <= |h'.conns|
    && (forall k :: 0 <= k < |h.conns| && k != c ==> h'.conns[k].task == h.conns[k].task)
    && (forall k :: |h.conns| <= k < |h'.conns| ==> h'.conns[k].task.Idle?)
  }

  /** A handler goes on with its frame or is done with it. */
  predicate SameFrame(a: Task, b: Task) {
    b.Idle? || (!a.Idle? && b.serial == a.serial)
  }

  /** The message was made by a handler, about the frame with its serial. */
  predicate FromHandler(m: Message) {
    m.Relay? || m.HubReply?
  }

  /** At most one message is queued, by the acting handler if by any, about the frame it has in hand. */
  predicate QueuesOwn(h: State, h': State, c: ConnId) {
    h'.log == h.log || (
      && |h'.log| == |h.log| + 1 && h.log <= h'.log
      && (FromHandler(h'.log[|h.log|].message) ==>
            c < |h.conns| && !h.conns[c].task.Idle? && h'.log[|h.log|].message.serial == h.conns[c].task.serial))
  }

  ghost predicate Effect(h: State, h': State, c: ConnId) {
    && h'.frames == h.frames && h'.routed == h.routed && h'.trusted == h.trusted
    && OthersStay(h, h', c) && QueuesOwn(h, h', c)
    && (c < |h.conns| ==> SameFrame(h.conns[c].task, h'.conns[c].task))
  }

  lemma PushQueues(h: State, dest: ConnId, m: Message, r: Outbox.PushResult)
    requires dest < |h.conns|
    ensures var h' := Push(h, dest, m, r);
            && h'.log == (if r.Ok? then h.log + [Delivery(dest, m)] else h.log)
            && |h'.conns| == |h.conns| && (forall k :: 0 <= k < |h.conns| ==> h'.conns[k].task == h.conns[k].task)
            && h'.frames == h.frames && h'.routed == h.routed && h'.trusted == h.trusted
  {
  }

  /** The handler leaves with the same verdict to count, if it had one. */
  predicate SameDebt(a: Task, b: Task) {
    if a.Pruning? || a.Settling? then (b.Pruning? || b.Settling?) && b.serial == a.serial
    else !b.Pruning? && !b.Settling?
  }

  /** No verdict is recorded or counted. */
  ghost predicate Quiet(h: State, h': State, c: ConnId) {
    && Effect(h, h', c)
    && h'.verdicts == h.verdicts && h'.stats == h.stats && h'.silent == h.silent
    && (c < |h.conns| ==> SameDebt(h.conns[c].task, h'.conns[c].task))
  }

  // ---- Step by step ------------------------------------------------------------------------

  lemma InsertEffect(h: State, c: ConnId)
    requires CanInsert(h, c)
    ensures Quiet(h, DoInsert(h, c), c)
  {
  }

  lemma AdoptEffect(h: State, c: ConnId)
    requires CanAdopt(h, c)
    ensures Quiet(h, DoAdopt(h, c), c)
  {
  }

  lemma DecideEffect(h: State, c: ConnId, s: Serial, text: Text, v: Verdict)
    requires c < |h.conns| && !h.conns[c].task.Idle? && h.conns[c].task.serial == s
    ensures Effect(h, Decide(h, c, s, text, v), c)
  {
  }

  lemma LookupEffect(h: State, c: ConnId)
    requires CanLookup(h, c)
    ensures Effect(h, DoLookup(h, c), c)
  {
    var t := h.conns[c].task;
    DecideEffect(h, c, t.serial, t.text, if h.bridge then Bridged else NoBridge);
    DecideEffect(h, c, t.serial, t.text, Refused(false));
  }

  lemma PushEffect(h: State, c: ConnId, r: Outbox.PushResult)
    requires CanPush(h, c, r)
    ensures Effect(h, DoPush(h, c, r), c)
  {
    var t := h.conns[c].task;
    PushQueues(h, t.dest, Relay(t.serial, t.text), r);
  }

  lemma PruneEffect(h: State, c: ConnId)
    requires CanPrune(h, c)
    ensures Quiet(h, DoPrune(h, c), c)
  {
  }

  lemma TallyEffect(h: State, e: Envelope, v: Verdict)
    ensures var h' := Tally(h, e, v);
            && h'.frames == h.frames && h'.routed == h.routed && h'.trusted == h.trusted && h'.log == h.log
            && h'.conns == h.conns && h'.verdicts == h.verdicts
  {
  }

  lemma AfterVerdictTask(s: Serial, e: Envelope, v: Verdict)
    ensures var t := AfterVerdict(s, e, v); t.Idle? || ((t.Replying? || t.Spawning?) && t.serial == s)
  {
  }

  lemma SettleEffect(h: State, c: ConnId)
    requires CanSettle(h, c)
    ensures Effect(h, DoSettle(h, c), c) && DoSettle(h, c).verdicts == h.verdicts
  {
    var t := h.conns[c].task;
    AfterVerdictTask(t.serial, t.text.parsed.value, t.verdict);
    TallyEffect(SetTask(h, c, AfterVerdict(t.serial, t.text.parsed.value, t.verdict)), t.text.parsed.value, t.verdict);
  }

  lemma ReplyEffect(h: State, c: ConnId, r: Outbox.PushResult)
    requires CanReply(h, c, r)
    ensures Quiet(h, DoReply(h, c, r), c)
  {
    PushQueues(h, c, HubReply(h.conns[c].task.serial, h.conns[c].task.reply), r);
  }

  lemma SpawnEffect(h: State, c: ConnId)
    requires CanSpawn(h, c)
    ensures Quiet(h, DoSpawn(h, c), c)
  {
  }

  lemma FanEffect(h: State, c: ConnId, id: NodeId, r: Outbox.PushResult)
    requires CanFan(h, c, id, r)
    ensures Quiet(h, DoFan(h, c, id, r), c)
  {
    var t := h.conns[c].task;
    PushQueues(h, t.targets[id], Relay(t.serial, t.text), r);
  }

  lemma RestEffect(h: State, c: ConnId, conn: Conn)
    requires c < |h.conns| && conn.task.Idle? && !h.conns[c].task.Pruning? && !h.conns[c].task.Settling?
    ensures Quiet(h, h.(conns := h.conns[c := conn]), c)
  {
  }

  lemma CleanupEffect(h: State, c: ConnId)
    requires CanCleanup(h, c)
    ensures Quiet(h, DoCleanup(h, c), c)
  {
  }

  lemma CloseFrameEffect(h: State, c: ConnId, r: Outbox.PushResult)
    requires CanCloseFrame(h, c, r)
    ensures Quiet(h, DoCloseFrame(h, c, r), c)
  {
  }

  lemma ControlEffect(h: State, c: ConnId, m: Message, r: Outbox.PushResult)
    requires CanControl(h, c, m, r)
    ensures Quiet(h, Push(h, c, m, r), |h.conns|)
  {
    PushQueues(h, c, m, r);
  }

  lemma ConnectEffect(h: State)
    ensures Quiet(h, DoConnect(h), |h.conns|) && Quiet(h, DoAttachBridge(h), |h.conns|)
  {
  }

  lemma DieEffect(h: State, c: ConnId)
    requires c < |h.conns|
    ensures Quiet(h, DoDie(h, c), |h.conns|)
  {
  }

  lemma AnswerEffect(h: State, s: Serial, status: string, r: Outbox.PushResult)
    requires CanAnswer(h, s, r)
    ensures Quiet(h, DoAnswer(h, s, status, r), |h.conns|)
  {
    PushQueues(h, h.frames[s].conn, GridReply(s, GridAnswer(h.frames[s].text.parsed.value, status)), r);
  }

  lemma RelocateEffect(h: State, s: Serial)
    requires CanRelocate(h, s)
    ensures Quiet(h, DoRelocate(h, s), |h.conns|)
  {
  }

  lemma RetryEffect(h: State, s: Serial, r: Outbox.PushResult)
    requires CanRetry(h, s, r)
    ensures Quiet(h, DoRetry(h, s, r), |h.conns|)
  {
    PushQueues(h, h.jobs[s].dest, GridReply(s, h.jobs[s].envelope), r);
  }

  // ---- Every step --------------------------------------------------------------------------

  /** The steps that record or count a verdict. */
  predicate Decides(step: Step) {
    step.Lookup? || step.PushDest? || step.Settle?
  }

  lemma HandlerEffect(h: State, step: Step)
    requires Enabled(h, step)
    requires step.Insert? || step.Adopt? || step.Prune? || step.SendReply? || step.Spawn? || step.Fan? || step.FanEnd?
    ensures Quiet(h, Apply(h, step), Actor(h, step))
  {
    match step
    case Insert(c) => InsertEffect(h, c);
    case Adopt(c) => AdoptEffect(h, c);
    case Prune(c) => PruneEffect(h, c);
    case SendReply(c, r) => ReplyEffect(h, c, r);
    case Spawn(c) => SpawnEffect(h, c);
    case Fan(c, id, r) => FanEffect(h, c, id, r);
    case FanEnd(c) => RestEffect(h, c, h.conns[c].(task := Idle));
  }

  lemma EndEffect(h: State, step: Step)
    requires Enabled(h, step) && (step.Exit? || step.Cleanup? || step.CloseFrame? || step.Die? || step.Connect?)
    ensures Quiet(h, Apply(h, step), Actor(h, step))
  {
    match step
    case Exit(c) => RestEffect(h, c, h.conns[c].(task := Idle, phase := Exited(false)));
    case Cleanup(c) => CleanupEffect(h, c);
    case CloseFrame(c, r) => CloseFrameEffect(h, c, r);
    case Die(c) => DieEffect(h, c);
    case Connect => ConnectEffect(h);
  }

  lemma OutsideEffect(h: State, step: Step)
    requires Enabled(h, step)
    requires step.Control? || step.AttachBridge? || step.BridgeAnswer? || step.BridgeLookup? || step.BridgeRetry?
    ensures Quiet(h, Apply(h, step), Actor(h, step))
  {
    match step
    case Control(c, m, r) => ControlEffect(h, c, m, r);
    case AttachBridge => ConnectEffect(h);
    case BridgeAnswer(s, status, r) => AnswerEffect(h, s, status, r);
    case BridgeLookup(s) => RelocateEffect(h, s);
    case BridgeRetry(s, r) => RetryEffect(h, s, r);
  }

  lemma QuietStep(h: State, step: Step)
    requires Enabled(h, step) && !step.Receive? && !Decides(step)
    ensures Quiet(h, Apply(h, step), Actor(h, step))
  {
    if step.Exit? || step.Cleanup? || step.CloseFrame? || step.Die? || step.Connect? {
      EndEffect(h, step);
    } else if step.Control? || step.AttachBridge? || step.BridgeAnswer? || step.BridgeLookup? || step.BridgeRetry? {
      OutsideEffect(h, step);
    } else {
      HandlerEffect(h, step);
    }
  }

  lemma StepEffect(h: State, step: Step)
    requires Enabled(h, step) && !step.Receive?
    ensures Effect(h, Apply(h, step), Actor(h, step))
  {
    match step
    case Lookup(c) => LookupEffect(h, c);
    case PushDest(c, r) => PushEffect(h, c, r);
    case Settle(c) => SettleEffect(h, c);
    case _ => QuietStep(h, step);
  }
}
