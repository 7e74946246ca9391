/**
 What the hub owes for a frame, written down on its own: the envelopes queued and for whom, the
 counters, the registry and the connections, with every id, code and limit spelled out. Nothing here
 refers to how the handler works.
 */
module HubSpec {
  import opened Wrappers
  import opened Protocol
  import opened Hub
  import Outbox

  // ---- Queues ------------------------------------------------------------------------------

  /** A push that nothing disturbs finds the queue dead exactly if it was dead before. */
  predicate Prompt(conn: Conn, r: Outbox.PushResult) {
    r.Closed? <==> conn.kicked || conn.closed
  }

  /** An overflow kicks the connection; nothing else about a push shows. */
  function Pushed(conns: seq<Conn>, d: ConnId, r: Outbox.PushResult): seq<Conn>
    requires d < |conns|
  {
    if r.Full? then conns[d := conns[d].(kicked := true)] else conns
  }

  /** The hub's own message to connection `c` about frame `s`, which reads `e` at the other end. */
  predicate Says(d: Delivery, c: ConnId, s: Serial, e: Envelope) {
    d.dest == c && d.message.HubReply? && d.message.serial == s && Read(d.message) == Some(e)
  }

  /** The log grows by `first` and then by `told`, if there is something to tell and its queue takes it. */
  ghost predicate Adds(log: seq<Delivery>, log': seq<Delivery>, first: seq<Delivery>,
                       c: ConnId, s: Serial, told: Option<Envelope>, q: Outbox.PushResult) {
    if told.Some? && q.Ok?
    then |log'| == |log + first| + 1 && log + first <= log' && Says(log'[|log + first|], c, s, told.value)
    else log' == log + first
  }

  // ---- Frames that are passed on -----------------------------------------------------------

  /** The envelopes a registered sender gets passed on to their addressee. */
  predicate PassedOn(e: Envelope) {
    || e.CommandRequest? || e.CommandResponse? || e.DataPayload?
    || ((e.DeliveryAck? || e.DeliveryNack?) && e.to != "hub")
  }

  predicate ForGrid(e: Envelope) {
    e.CommandRequest? && (e.to == "grid" || e.to == "grid-master" || "grid_" <= e.command)
  }

  datatype Fate = Delivered | TargetFull | TargetGone | ToBridge | WithoutBridge

  predicate HasTarget(h: State, e: Envelope) {
    !ForGrid(e) && e.to in h.nodes
  }

  /** How a frame ends up; `r` is what the push to its target returns, if it has one. */
  function FateOf(h: State, e: Envelope, r: Outbox.PushResult): Fate {
    if ForGrid(e) then (if h.bridge then ToBridge else WithoutBridge)
    else if e.to !in h.nodes || r.Closed? then TargetGone
    else if r.Full? then TargetFull
    else Delivered
  }

  /** What the sender is to be told, if anything. */
  function ToldSender(e: Envelope, fate: Fate): Option<Envelope> {
    match e
    case CommandRequest(corr, from, _, _, requireAck) =>
      (match fate
       case Delivered => if requireAck then Some(DeliveryAck(corr, "hub", from, true)) else None
       case ToBridge => if requireAck then Some(DeliveryAck(corr, "hub", from, true)) else None
       case TargetFull => Some(DeliveryNack(corr, "hub", from, NodeUnavailable))
       case TargetGone => Some(DeliveryNack(corr, "hub", from, NodeNotFound))
       case WithoutBridge => Some(DeliveryNack(corr, "hub", from, BridgeNotConfigured)))
    case DataPayload(corr, from, _, _) =>
      if fate.TargetFull? then Some(DeliveryNack(corr, "hub", from, NodeUnavailable))
      else if fate.TargetGone? then Some(DeliveryNack(corr, "hub", from, NodeNotFound))
      else None
    case _ => None
  }

  function One(b: bool): nat {
    if b then 1 else 0
  }

  function Counted(stats: Stats, e: Envelope, fate: Fate): Stats {
    var forwarded := fate.Delivered? || fate.ToBridge?;
    Stats(stats.commands + One(e.CommandRequest?),
          stats.responses + One(e.CommandResponse?),
          stats.data + One(e.DataPayload?),
          stats.acks + One(e.CommandRequest? && forwarded && e.requireAck),
          stats.nacks + One(e.CommandRequest? && !forwarded))
  }

  /**
   The whole effect of a frame that is passed on. `r` is what the push to the target returned, `q`
   what the push of the reply to the sender returned: a sender that is dead by then, and be it
   because the frame went to its own full queue, is told nothing.
   */
  ghost predicate PassedOnWell(h: State, h': State, c: ConnId, text: Text, r: Outbox.PushResult, q: Outbox.PushResult)
    requires c < |h.conns| && text.parsed.Some?
    requires forall id :: id in h.nodes ==> h.nodes[id] < |h.conns|
  {
    var s, e := |h.frames|, text.parsed.value;
    var fate := FateOf(h, e, r);
    var told := ToldSender(e, fate);
    var relayed := if fate.Delivered? then [Delivery(h.nodes[e.to], Relay(s, text))] else [];
    var conns := if HasTarget(h, e) then Pushed(h.conns, h.nodes[e.to], r) else h.conns;
    && (HasTarget(h, e) ==> Prompt(h.conns[h.nodes[e.to]], r))
    && (told.Some? ==> Prompt(conns[c], q))
    && Adds(h.log, h'.log, relayed, c, s, told, q)
    && h'.stats == Counted(h.stats, e, fate)
    && h'.nodes == (if HasTarget(h, e) && r.Closed? then h.nodes - {e.to} else h.nodes)
    && h'.conns == (if told.Some? then Pushed(conns, c, q) else conns)
    && h'.jobs == (if fate.ToBridge? then h.jobs[s := Answering] else h.jobs)
  }

  // ---- Frames the hub answers itself -------------------------------------------------------

  /** The sender is told `e`, the connection goes on as `conn`, and that is all. */
  ghost predicate Answered(h: State, h': State, c: ConnId, conn: Conn, e: Envelope, q: Outbox.PushResult)
    requires c < |h.conns|
  {
    && Prompt(h.conns[c], q) && Adds(h.log, h'.log, [], c, |h.frames|, Some(e), q)
    && h'.stats == h.stats && h'.nodes == h.nodes && h'.jobs == h.jobs
    && h'.conns == Pushed(h.conns[c := conn], c, q)
  }

  /** Nothing is queued, counted or registered; the connection goes on as `conn`. */
  ghost predicate NothingBut(h: State, h': State, c: ConnId, conn: Conn)
    requires c < |h.conns|
  {
    h'.log == h.log && h'.stats == h.stats && h'.nodes == h.nodes && h'.jobs == h.jobs && h'.conns == h.conns[c := conn]
  }

  // ---- Registrations -----------------------------------------------------------------------

  /** Why a registration is refused, if it is. */
  function WhyNot(h: State, c: ConnId, e: Envelope): Option<NackCode>
    requires c < |h.conns| && e.NodeRegistration?
    requires forall id :: id in h.nodes ==> h.nodes[id] < |h.conns|
  {
    var owned := h.conns[c].owned;
    if owned == [] && h.token.Some? && e.token != h.token then Some(Unauthorized)
    else if !ValidNodeId(e.from) || (e.from !in owned && |owned| >= 16) then Some(InvalidNodeId)
    else if e.from in h.nodes && h.nodes[e.from] != c && !h.conns[h.nodes[e.from]].kicked && !h.conns[h.nodes[e.from]].closed
    then Some(DuplicateNodeId)
    else None
  }

  /**
   The whole effect of a registration: the connection gets the id, from a dead holder if there is
   one, and is told so; or it is told why not, nothing is taken, and without an id it is closed.
   */
  ghost predicate RegisteredWell(h: State, h': State, c: ConnId, e: Envelope, q: Outbox.PushResult)
    requires c < |h.conns| && e.NodeRegistration?
    requires forall id :: id in h.nodes ==> h.nodes[id] < |h.conns|
  {
    var why, conn := WhyNot(h, c, e), h.conns[c];
    var told := if why.None? then NodeRegistrationAck(e.corr, "hub", e.from) else DeliveryNack(e.corr, "hub", EchoId(e.from), why.value);
    var next := if why.Some? then (if conn.owned == [] then conn.(phase := Exited(true)) else conn)
                else if e.from in conn.owned then conn else conn.(owned := conn.owned + [e.from]);
    && Prompt(conn, q) && Adds(h.log, h'.log, [], c, |h.frames|, Some(told), q)
    && h'.stats == h.stats && h'.jobs == h.jobs
    && h'.nodes == (if why.None? then h.nodes[e.from := c] else h.nodes)
    && h'.conns == Pushed(h.conns[c := next], c, q)
  }

  // ---- Broadcasts --------------------------------------------------------------------------

  /** Copies of the frame go to holders of other nodes, and overflowing ones are kicked. */
  ghost predicate FannedOut(h: State, h': State, c: ConnId, text: Text)
    requires text.parsed.Some?
  {
    && h.log <= h'.log && |h'.conns| == |h.conns|
    && (forall i :: |h.log| <= i < |h'.log| ==>
          h'.log[i].message == Relay(|h.frames|, text) && ToOther(h, text.parsed.value.from, h'.log[i].dest))
    && (forall k :: 0 <= k < |h.conns| ==>
          h'.conns[k] == h.conns[k] || (ToOther(h, text.parsed.value.from, k) && h'.conns[k] == h.conns[k].(kicked := true)))
    && h'.stats == h.stats && h'.nodes == h.nodes && h'.jobs == h.jobs
  }

  ghost predicate ToOther(h: State, from: NodeId, k: ConnId) {
    exists id :: id in h.nodes && id != from && h.nodes[id] == k
  }

  // ---- Every frame -------------------------------------------------------------------------

  /** The catalogue a node list request is answered with. */
  function Online(h: State): set<NodeId> {
    h.nodes.Keys + if h.bridge then {"grid"} else {}
  }

  /** A frame whose sender is registered on this connection. */
  ghost predicate OwnFrameWell(h: State, h': State, c: ConnId, text: Text, r: Outbox.PushResult, q: Outbox.PushResult)
    requires c < |h.conns| && text.parsed.Some?
    requires forall id :: id in h.nodes ==> h.nodes[id] < |h.conns|
  {
    var e, conn := text.parsed.value, h.conns[c];
    if PassedOn(e) then PassedOnWell(h, h', c, text, r, q)
    else match e
      case NodeList(corr, from, _) => Answered(h, h', c, conn, NodeListResponse(corr, "hub", from, Online(h)), q)
      case Heartbeat(corr, from, _) => Answered(h, h', c, conn, HeartbeatAck(corr, "hub", from), q)
      case Broadcast(_, _, _) => FannedOut(h, h', c, text)
      case _ => NothingBut(h, h', c, conn)
  }

  /** What every frame leads to. */
  ghost predicate HandledWell(h: State, h': State, c: ConnId, text: Text, r: Outbox.PushResult, q: Outbox.PushResult)
    requires c < |h.conns|
    requires forall id :: id in h.nodes ==> h.nodes[id] < |h.conns|
  {
    var conn := h.conns[c];
    && h'.frames == h.frames + [Received(c, text)] && h'.token == h.token && h'.bridge == h.bridge
    && if conn.owned == [] && (ByteLen(text.raw) > 65536 || text.parsed.None?) then
         NothingBut(h, h', c, conn.(phase := Exited(false)))
       else if text.parsed.None? then NothingBut(h, h', c, conn)
       else
         var e := text.parsed.value;
         if e.NodeRegistration? then RegisteredWell(h, h', c, e, q)
         else if conn.owned == [] then
           Answered(h, h', c, conn.(phase := Exited(true)), DeliveryNack(e.corr, "hub", EchoId(e.from), NotRegistered), q)
         else if e.NodeRegistrationAck? || e.NodeListResponse? || e.HeartbeatAck? then NothingBut(h, h', c, conn)
         else if e.from !in conn.owned then
           Answered(h, h', c, conn, DeliveryNack(e.corr, "hub", conn.owned[0], SenderMismatch), q)
         else OwnFrameWell(h, h', c, text, r, q)
  }

  // ---- Bridge jobs -------------------------------------------------------------------------

  /** A message of the bridge to connection `d` about frame `s`. */
  predicate BridgeSays(d: Delivery, dest: ConnId, s: Serial, e: Envelope) {
    d.dest == dest && d.message.GridReply? && d.message.serial == s && Read(d.message) == Some(e)
  }

  ghost predicate BridgeAdds(log: seq<Delivery>, log': seq<Delivery>, dest: ConnId, s: Serial, e: Envelope, r: Outbox.PushResult) {
    if r.Ok? then |log'| == |log| + 1 && log <= log' && BridgeSays(log'[|log|], dest, s, e) else log' == log
  }

  /**
   Where the bridge's response to command `e` goes: to the connection that asked; if that does not
   take it, to the connection that holds the asking node then, if there is one; and nowhere else.
   */
  ghost predicate RespondedWell(h: State, h': State, s: Serial, c: ConnId, e: Envelope, status: string, r: Outbox.PushResult, r2: Outbox.PushResult)
    requires c < |h.conns| && (forall id :: id in h.nodes ==> h.nodes[id] < |h.conns|)
  {
    var answer, conns := CommandResponse(e.corr, "grid", e.from, status), Pushed(h.conns, c, r);
    && Prompt(h.conns[c], r) && h'.nodes == h.nodes && h'.stats == h.stats
    && if r.Ok? || e.from !in h.nodes then BridgeAdds(h.log, h'.log, c, s, answer, r) && h'.conns == conns
       else && Prompt(conns[h.nodes[e.from]], r2) && BridgeAdds(h.log, h'.log, h.nodes[e.from], s, answer, r2)
            && h'.conns == Pushed(conns, h.nodes[e.from], r2)
  }
}
