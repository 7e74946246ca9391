/** The invariant of the relay hub: who owns what, where queued messages came from, how routing ends. */
module HubInv {
  import opened Wrappers
  import opened Protocol
  import opened Sums
  import opened Hub

  // ---- Frames ------------------------------------------------------------------------------

  predicate Mine(h: State, c: ConnId, s: Serial) {
    s < |h.frames| && h.frames[s].conn == c && c < |h.conns|
  }

  /** Frame `s` is a registration of `id` by `c`. */
  predicate Registration(h: State, c: ConnId, s: Serial, id: NodeId) {
    && Mine(h, c, s) && h.frames[s].text.parsed.Some?
    && h.frames[s].text.parsed.value.NodeRegistration? && h.frames[s].text.parsed.value.from == id
  }

  /** Frame `s` is a registration by `c` that presented the hub's token, if the hub has one. */
  predicate Authentication(h: State, c: ConnId, s: Serial) {
    && Mine(h, c, s) && h.frames[s].text.parsed.Some?
    && h.frames[s].text.parsed.value.NodeRegistration?
    && TokenOk(h.token, h.frames[s].text.parsed.value.token)
  }

  /** Before frame `s`, connection `c` had registered `id` and shown the token. */
  ghost predicate Entitled(h: State, c: ConnId, s: Serial, id: NodeId) {
    && (exists r: Serial :: r < s && Registration(h, c, r, id))
    && (exists a: Serial :: a < s && Authentication(h, c, a))
  }

  /** Frame `s` was received by `c` as `text`, when `c` owned the sender it claims. */
  ghost predicate Relayable(h: State, c: ConnId, s: Serial, text: Text) {
    && Mine(h, c, s) && text == h.frames[s].text && s in h.trusted
    && text.parsed.Some? && text.parsed.value.from in h.conns[c].owned
    && Entitled(h, c, s, text.parsed.value.from)
  }

  predicate IsBroadcast(h: State, s: Serial) {
    s < |h.frames| && h.frames[s].text.parsed.Some? && h.frames[s].text.parsed.value.Broadcast?
  }

  predicate IsCommand(text: Text) {
    text.parsed.Some? && text.parsed.value.CommandRequest?
  }

  // ---- Ownership ---------------------------------------------------------------------------

  /** The socket has an id, or is between inserting its first and recording it. */
  predicate Known(conn: Conn) {
    conn.owned != [] || conn.task.Adopting?
  }

  ghost predicate OwnedOk(h: State, c: ConnId)
    requires c < |h.conns|
  {
    var owned := h.conns[c].owned;
    && |owned| <= MAX_NODE_IDS_PER_SOCKET
    && (forall i, j :: 0 <= i < j < |owned| ==> owned[i] != owned[j])
    && (forall id :: id in owned ==> ValidNodeId(id) && exists s :: Registration(h, c, s, id))
    && (owned != [] ==> exists s :: Authentication(h, c, s))
  }

  /** A connection that is neither dead nor cleaned up holds every id it registered. */
  predicate Holds(h: State, c: ConnId, id: NodeId)
    requires c < |h.conns|
  {
    h.conns[c].Dead() || h.conns[c].phase.Removed? || (id in h.nodes && h.nodes[id] == c)
  }

  predicate Claims(conn: Conn, id: NodeId) {
    id in conn.owned || (conn.task.Adopting? && conn.task.id == id)
  }

  /** The connection has an id other than `id`. */
  ghost predicate ClaimsOther(conn: Conn, id: NodeId) {
    exists other :: Claims(conn, other) && other != id
  }

  ghost predicate LiveOwners(h: State) {
    forall c, id :: 0 <= c < |h.conns| && Claims(h.conns[c], id) ==> Holds(h, c, id)
  }

  ghost predicate NodesOk(h: State) {
    forall id :: id in h.nodes ==>
      h.nodes[id] < |h.conns| && !h.conns[h.nodes[id]].phase.Removed? && Claims(h.conns[h.nodes[id]], id)
  }

  // ---- Routing -----------------------------------------------------------------------------

  predicate Forwarded(v: Verdict) { v.Queued? || v.Bridged? }

  /** A response, an ACK or a NACK: the envelopes a peer sends about someone else's request. */
  predicate IsAnswer(e: Envelope) {
    e.CommandResponse? || e.DeliveryAck? || e.DeliveryNack?
  }

  /** A reply of the hub to frame `s` tells the truth about it. */
  predicate ReplyOk(h: State, s: Serial, r: Reply) {
    && s < |h.frames| && h.frames[s].text.parsed.Some?
    && r.corr == h.frames[s].text.parsed.value.corr
    && (r.to == h.frames[s].text.parsed.value.from
        || (h.frames[s].conn < |h.conns| && r.to in h.conns[h.frames[s].conn].owned))
    && (r.kind.TargetForwarded? ==>
          IsCommand(h.frames[s].text) && s in h.verdicts && Forwarded(h.verdicts[s]))
    && (r.kind.Refusal? ==>
          && (s !in h.routed || (s in h.verdicts && !Forwarded(h.verdicts[s])))
          && (IsAnswer(h.frames[s].text.parsed.value) ==> s !in h.trusted))
  }

  ghost predicate InRouting(h: State, c: ConnId, s: Serial, text: Text) {
    Relayable(h, c, s, text) && s in h.routed && !text.parsed.value.Broadcast?
  }

  ghost predicate TaskOk(h: State, c: ConnId)
    requires c < |h.conns|
  {
    var conn := h.conns[c];
    && (!conn.task.Idle? ==> conn.phase.Running?)
    && match conn.task
       case Idle => true
       case Inserting(s, id) => Admissible(h, c, s, id)
       case Adopting(s, id) => Admissible(h, c, s, id)
       case Routing(s, text) => InRouting(h, c, s, text) && s !in h.verdicts
       case Pushing(s, text, dest) =>
         && InRouting(h, c, s, text) && s !in h.verdicts
         && dest < |h.conns| && Claims(h.conns[dest], text.parsed.value.to)
         && !(IsCommand(text) && GridTargeted(text.parsed.value))
       case Pruning(s, text) => InRouting(h, c, s, text) && s in h.verdicts && h.verdicts[s] == Refused(false)
       case Settling(s, text, v) => InRouting(h, c, s, text) && s in h.verdicts && h.verdicts[s] == v && s !in h.jobs
       case Replying(s, r, after) =>
         && Mine(h, c, s) && ReplyOk(h, s, r)
         && (after == SpawnAfter ==> Spawnable(h, c, s))
       case Spawning(s) => Spawnable(h, c, s)
       case Fanning(s, text, targets) =>
         && Relayable(h, c, s, text) && text.parsed.value.Broadcast?
         && forall id :: id in targets ==>
              targets[id] < |h.conns| && Claims(h.conns[targets[id]], id) && id != text.parsed.value.from
  }

  predicate Admissible(h: State, c: ConnId, s: Serial, id: NodeId) {
    && Registration(h, c, s, id) && ValidNodeId(id)
    && (id in h.conns[c].owned || |h.conns[c].owned| < MAX_NODE_IDS_PER_SOCKET)
    && (h.conns[c].owned == [] ==> Authentication(h, c, s))
  }

  predicate Spawnable(h: State, c: ConnId, s: Serial) {
    && Mine(h, c, s) && IsCommand(h.frames[s].text)
    && s in h.verdicts && h.verdicts[s] == Bridged && s !in h.jobs
  }

  predicate JobOk(h: State, s: Serial)
    requires s in h.jobs
  {
    && s < |h.frames| && h.frames[s].conn < |h.conns| && IsCommand(h.frames[s].text)
    && s in h.verdicts && h.verdicts[s] == Bridged
    && match h.jobs[s]
       case Answering => true
       case Retrying(e) => Answers(h, s, e)
       case Redirecting(e, dest) => Answers(h, s, e) && dest < |h.conns| && Claims(h.conns[dest], e.to)
       case Finished(_) => true
  }

  /** `e` is the bridge's response to the command in frame `s`. */
  predicate Answers(h: State, s: Serial, e: Envelope) {
    && s < |h.frames| && h.frames[s].text.parsed.Some? && e.CommandResponse? && e.from == "grid"
    && e.corr == h.frames[s].text.parsed.value.corr && e.to == h.frames[s].text.parsed.value.from
  }

  // ---- The log -----------------------------------------------------------------------------

  /** Where a queued message came from. */
  ghost predicate DeliveryOk(h: State, d: Delivery) {
    && d.dest < |h.conns|
    && match d.message
       case Relay(s, text) =>
         && s < |h.frames| && Relayable(h, h.frames[s].conn, s, text)
         && if IsBroadcast(h, s) then ClaimsOther(h.conns[d.dest], text.parsed.value.from)
            else s in h.verdicts && h.verdicts[s] == Queued(d.dest) && Claims(h.conns[d.dest], text.parsed.value.to)
       case HubReply(s, r) => Mine(h, d.dest, s) && ReplyOk(h, s, r)
       case GridReply(s, e) =>
         && Answers(h, s, e) && s in h.verdicts && h.verdicts[s] == Bridged && s in h.jobs
         && (d.dest == h.frames[s].conn || Claims(h.conns[d.dest], e.to))
       case Ping => true
       case Pong => true
  }

  /** How often frame `s` has been queued. */
  function Copies(log: seq<Delivery>, s: Serial): nat {
    if log == [] then 0 else
      Copies(log[..|log| - 1], s) +
      (if log[|log| - 1].message.Relay? && log[|log| - 1].message.serial == s then 1 else 0)
  }

  /** How often a bridge response to frame `s` has been queued. */
  function Responses(log: seq<Delivery>, s: Serial): nat {
    if log == [] then 0 else
      Responses(log[..|log| - 1], s) +
      (if log[|log| - 1].message.GridReply? && log[|log| - 1].message.serial == s then 1 else 0)
  }

  ghost predicate OnceEach(h: State) {
    && (forall s :: !IsBroadcast(h, s) ==> Copies(h.log, s) == if s in h.verdicts && h.verdicts[s].Queued? then 1 else 0)
    && (forall s :: Responses(h.log, s) == if s in h.jobs && h.jobs[s] == Finished(true) then 1 else 0)
  }

  ghost predicate RoutedOk(h: State) {
    && (forall s :: s in h.routed ==>
          && s < |h.frames| && h.frames[s].text.parsed.Some?
          && !h.frames[s].text.parsed.value.NodeRegistration? && !IsBroadcast(h, s))
    && (forall s :: s in h.trusted ==> s < |h.frames|)
    && h.verdicts.Keys <= h.routed
    && h.jobs.Keys <= h.verdicts.Keys
  }

  /** A command counted but not yet settled. */
  function InFlight(conn: Conn): nat {
    match conn.task
    case Routing(_, text) => if IsCommand(text) then 1 else 0
    case Pushing(_, text, _) => if IsCommand(text) then 1 else 0
    case Pruning(_, text) => if IsCommand(text) then 1 else 0
    case Settling(_, text, _) => if IsCommand(text) then 1 else 0
    case _ => 0
  }

  predicate Accounted(h: State) {
    h.stats.commands == h.stats.acks + h.stats.nacks + h.silent + Sum(h.conns, InFlight)
  }

  // ---- Everything --------------------------------------------------------------------------

  ghost predicate ConnsOk(h: State) {
    forall c :: 0 <= c < |h.conns| ==> OwnedOk(h, c) && TaskOk(h, c)
  }

  ghost predicate LogOk(h: State) {
    forall i :: 0 <= i < |h.log| ==> DeliveryOk(h, h.log[i])
  }

  ghost predicate JobsOk(h: State) {
    forall s :: s in h.jobs ==> JobOk(h, s)
  }

  ghost predicate FramesOk(h: State) {
    forall s :: 0 <= s < |h.frames| ==> h.frames[s].conn < |h.conns|
  }

  /** The frame is still being routed by the connection that received it. */
  predicate Deciding(h: State, s: Serial) {
    && s < |h.frames| && h.frames[s].conn < |h.conns|
    && match h.conns[h.frames[s].conn].task
       case Routing(s', _) => s' == s
       case Pushing(s', _, _) => s' == s
       case _ => false
  }

  /** No routed frame is forgotten: it has a verdict, or its handler is on its way to one. */
  ghost predicate NoneForgotten(h: State) {
    forall s :: s in h.routed && s !in h.verdicts ==> Deciding(h, s)
  }

  ghost predicate HistoryOk(h: State) {
    FramesOk(h) && RoutedOk(h) && LogOk(h) && JobsOk(h) && OnceEach(h)
  }

  ghost predicate RegistryOk(h: State) {
    NodesOk(h) && LiveOwners(h)
  }

  ghost predicate Inv(h: State) {
    HistoryOk(h) && ConnsOk(h) && NoneForgotten(h) && RegistryOk(h) && Accounted(h)
  }
}
