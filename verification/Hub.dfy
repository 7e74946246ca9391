/**
 The relay hub (crates/agent_mesh/src/hub.rs) as a transition system. Any number of sockets register
 node ids in the shared `nodes` map and relay frames, each handler stopped between any two of its
 lock acquisitions or pushes. A `Step` is one such critical section; a run is any legal sequence.

 Connection ids number the connections in the order they were accepted. A push is one step with its
 result as a label; `OutboxProofs.PushIsAtomic` justifies that view of the real queue.
 */
module Hub {
  import opened Wrappers
  import opened Protocol
  import Outbox

  type ConnId = nat
  type Serial = nat

  const MAX_NODE_IDS_PER_SOCKET := 16
  const PRE_REGISTRATION_MAX_BYTES := 64 * 1024

  /** How the routing of a frame ended. */
  datatype Verdict = Queued(dest: ConnId) | Refused(full: bool) | Bridged | NoBridge

  datatype After = Continue | CloseAfter | SpawnAfter

  /** What the handler of a connection does next. */
  datatype Task =
    | Idle
    | Inserting(serial: Serial, id: NodeId)                       // registration checked; write lock next
    | Adopting(serial: Serial, id: NodeId)                        // inserted; `owned.push` next
    | Routing(serial: Serial, text: Text)                         // counted; lookup of the target next
    | Pushing(serial: Serial, text: Text, dest: ConnId)           // target's outbox in hand
    | Pruning(serial: Serial, text: Text)                         // push said `Closed`; prune next
    | Settling(serial: Serial, text: Text, verdict: Verdict)      // outcome known; statistics next
    | Replying(serial: Serial, reply: Reply, after: After)        // hub reply to push on the own outbox
    | Spawning(serial: Serial)                                    // bridge job to start
    | Fanning(serial: Serial, text: Text, targets: map<NodeId, ConnId>)

  datatype Phase = Running | Exited(graceful: bool) | Removed(graceful: bool)

  /** `kicked` and `closed` are the two ways an outbox can be dead; neither is ever taken back. */
  datatype Conn = Conn(phase: Phase, owned: seq<NodeId>, kicked: bool, closed: bool, task: Task)
  {
    predicate Dead() { kicked || closed }
  }

  /** What a grid command started on the bridge is doing. */
  datatype Job = Answering | Retrying(envelope: Envelope) | Redirecting(envelope: Envelope, dest: ConnId) | Finished(queued: bool)

  datatype Stats = Stats(commands: nat, responses: nat, data: nat, acks: nat, nacks: nat)

  datatype Received = Received(conn: ConnId, text: Text)

  datatype Delivery = Delivery(dest: ConnId, message: Message)

  /**
   `frames`, `log`, `trusted`, `routed`, `verdicts` and `silent` are history: frames received (a
   frame's serial is its index), messages accepted by an outbox, frames whose sender was registered
   when they came in, frames that entered routing, how routing ended, and commands forwarded without
   an ACK.
   */
  datatype State = State(
    token: Option<string>, bridge: bool,
    nodes: map<NodeId, ConnId>, conns: seq<Conn>, stats: Stats, jobs: map<Serial, Job>,
    frames: seq<Received>, log: seq<Delivery>,
    trusted: set<Serial>, routed: set<Serial>, verdicts: map<Serial, Verdict>, silent: nat)

  datatype Step =
    | Connect
    | AttachBridge
    | Receive(c: ConnId, text: Text)
    | Insert(c: ConnId)
    | Adopt(c: ConnId)
    | Lookup(c: ConnId)
    | PushDest(c: ConnId, r: Outbox.PushResult)
    | Prune(c: ConnId)
    | Settle(c: ConnId)
    | SendReply(c: ConnId, r: Outbox.PushResult)
    | Spawn(c: ConnId)
    | Fan(c: ConnId, id: NodeId, r: Outbox.PushResult)
    | FanEnd(c: ConnId)
    | Control(c: ConnId, m: Message, r: Outbox.PushResult)
    | Exit(c: ConnId)
    | Cleanup(c: ConnId)
    | CloseFrame(c: ConnId, r: Outbox.PushResult)
    | Die(c: ConnId)
    | BridgeAnswer(s: Serial, status: string, r: Outbox.PushResult)
    | BridgeLookup(s: Serial)
    | BridgeRetry(s: Serial, r: Outbox.PushResult)

  function Start(token: Option<string>): State {
    State(token, false, map[], [], Stats(0, 0, 0, 0, 0), map[], [], [], {}, {}, map[], 0)
  }

  // ---- Small pieces of the handler -----------------------------------------------------------

  predicate TokenOk(expected: Option<string>, presented: Option<string>) {
    expected.Some? ==> presented == expected
  }

  predicate StartsWith(s: string, prefix: string) { prefix <= s }

  predicate GridTargeted(e: Envelope)
    requires e.CommandRequest?
  {
    || e.to == "grid"
    || e.to == "grid-master"
    || StartsWith(e.command, "grid_")
    || (e.to == "hub" && (e.command == "grid_status" || StartsWith(e.command, "grid_")))
  }

  /** A refusal addressed to the id the peer claimed. */
  function Echo(e: Envelope, code: NackCode): Reply {
    Reply(Refusal(code), e.corr, e.from, true)
  }

  /** The bridge's response to command `e`. */
  function GridAnswer(e: Envelope, status: string): Envelope {
    CommandResponse(e.corr, "grid", e.from, status)
  }

  /** What a queue may answer: a closed receiver takes nothing, and only a dead outbox says `Closed`. */
  predicate Permits(conn: Conn, r: Outbox.PushResult) {
    match r
    case Ok => !conn.closed
    case Full => true
    case Closed => conn.Dead()
  }

  /** A push that returned `r`: `Ok` queued the message, `Full` kicked the connection. */
  function Push(h: State, dest: ConnId, m: Message, r: Outbox.PushResult): State
    requires dest < |h.conns|
  {
    match r
    case Ok => h.(log := h.log + [Delivery(dest, m)])
    case Full => h.(conns := h.conns[dest := h.conns[dest].(kicked := true)])
    case Closed => h
  }

  function SetTask(h: State, c: ConnId, t: Task): State
    requires c < |h.conns|
  {
    h.(conns := h.conns[c := h.conns[c].(task := t)])
  }

  function Stop(h: State, c: ConnId, graceful: bool): State
    requires c < |h.conns|
  {
    h.(conns := h.conns[c := h.conns[c].(task := Idle, phase := Exited(graceful))])
  }

  // ---- handle_text -----------------------------------------------------------------------------

  /** What the handler decides on a frame before it touches shared state. */
  datatype Decision = Ignore | Leave | Next(task: Task)

  /** `handle_text` and the checks of `handle_registration`, on a frame recorded under `s`. */
  function HandleText(h: State, conn: Conn, s: Serial, text: Text): Decision {
    var registered := conn.owned != [];
    if !registered && ByteLen(text.raw) > PRE_REGISTRATION_MAX_BYTES then Leave
    else if text.parsed.None? then (if registered then Ignore else Leave)
    else
      var e := text.parsed.value;
      if e.NodeRegistration? then Next(HandleRegistration(h, conn, s, e))
      else if !registered then Next(Replying(s, Echo(e, NotRegistered), CloseAfter))
      else if e.NodeRegistrationAck? || e.NodeListResponse? || e.HeartbeatAck? then Ignore
      else if e.from !in conn.owned then
        Next(Replying(s, Reply(Refusal(SenderMismatch), e.corr, conn.owned[0], false), Continue))
      else Route(h, s, text)
  }

  function CloseIfFirst(conn: Conn): After {
    if conn.owned == [] then CloseAfter else Continue
  }

  function HandleRegistration(h: State, conn: Conn, s: Serial, e: Envelope): Task
    requires e.NodeRegistration?
  {
    if conn.owned == [] && !TokenOk(h.token, e.token) then Replying(s, Echo(e, Unauthorized), CloseAfter)
    else if !ValidNodeId(e.from) || (e.from !in conn.owned && |conn.owned| >= MAX_NODE_IDS_PER_SOCKET) then
      Replying(s, Echo(e, InvalidNodeId), CloseIfFirst(conn))
    else Inserting(s, e.from)
  }

  /** `route` up to its first lookup. */
  function Route(h: State, s: Serial, text: Text): Decision
    requires text.parsed.Some?
  {
    match text.parsed.value
    case NodeList(corr, from, _) =>
      var online := h.nodes.Keys + (if h.bridge then {"grid"} else {});
      Next(Replying(s, Reply(Catalog(online), corr, from, false), Continue))
    case Heartbeat(corr, from, _) => Next(Replying(s, Reply(Beat, corr, from, false), Continue))
    case CommandRequest(_, _, _, _, _) => Next(Routing(s, text))
    case CommandResponse(_, _, _, _) => Next(Routing(s, text))
    case DataPayload(_, _, _, _) => Next(Routing(s, text))
    case DeliveryAck(_, _, to, _) => if to != "hub" then Next(Routing(s, text)) else Ignore
    case DeliveryNack(_, _, to, _) => if to != "hub" then Next(Routing(s, text)) else Ignore
    case Broadcast(_, from, _) => Next(Fanning(s, text, h.nodes - {from}))
    case _ => Ignore
  }

  /** A frame that enters routing is counted by its type. */
  function Count(stats: Stats, t: Task): Stats {
    if !t.Routing? || t.text.parsed.None? then stats else
    match t.text.parsed.value
    case CommandRequest(_, _, _, _, _) => stats.(commands := stats.commands + 1)
    case CommandResponse(_, _, _, _) => stats.(responses := stats.responses + 1)
    case DataPayload(_, _, _, _) => stats.(data := stats.data + 1)
    case _ => stats
  }

  function Enact(h: State, c: ConnId, s: Serial, d: Decision): State
    requires c < |h.conns|
  {
    match d
    case Ignore => h
    case Leave => Stop(h, c, false)
    case Next(t) =>
      SetTask(h, c, t).(stats := Count(h.stats, t), routed := if t.Routing? then h.routed + {s} else h.routed)
  }

  /** The end of `route`: the reply a verdict leads to. */
  function AfterVerdict(s: Serial, e: Envelope, v: Verdict): Task {
    match e
    case CommandRequest(corr, from, _, _, requireAck) =>
      if v.Queued? || v.Bridged? then
        if requireAck then
          Replying(s, Reply(TargetForwarded, corr, from, false), if v.Bridged? then SpawnAfter else Continue)
        else if v.Bridged? then Spawning(s)
        else Idle
      else Replying(s, Reply(Refusal(NackOf(v)), corr, from, false), Continue)
    case DataPayload(corr, from, _, _) =>
      if v.Refused? then Replying(s, Reply(Refusal(NackOf(v)), corr, from, false), Continue) else Idle
    case _ => Idle
  }

  function NackOf(v: Verdict): NackCode {
    match v
    case NoBridge => BridgeNotConfigured
    case Refused(true) => NodeUnavailable
    case _ => NodeNotFound
  }

  /** How a settled command is counted: ACK, NACK, or forwarded without an ACK. */
  function Tally(h: State, e: Envelope, v: Verdict): State {
    if !e.CommandRequest? then h
    else if !(v.Queued? || v.Bridged?) then h.(stats := h.stats.(nacks := h.stats.nacks + 1))
    else if e.requireAck then h.(stats := h.stats.(acks := h.stats.acks + 1))
    else h.(silent := h.silent + 1)
  }

  // ---- Steps: one guard and one effect each --------------------------------------------------------

  predicate AtRest(h: State, c: ConnId) {
    c < |h.conns| && h.conns[c].phase.Running? && h.conns[c].task.Idle?
  }

  function DoConnect(h: State): State {
    h.(conns := h.conns + [Conn(Running, [], false, false, Idle)])
  }

  function DoAttachBridge(h: State): State {
    h.(bridge := true)
  }

  function DoReceive(h: State, c: ConnId, text: Text): State
    requires AtRest(h, c)
  {
    Enact(Record(h, c, text), c, |h.frames|, HandleText(h, h.conns[c], |h.frames|, text))
  }

  function Record(h: State, c: ConnId, text: Text): State
    requires c < |h.conns|
  {
    h.(frames := h.frames + [Received(c, text)],
       trusted := if Trusted(h.conns[c], text) then h.trusted + {|h.frames|} else h.trusted)
  }

  predicate Trusted(conn: Conn, text: Text) {
    text.parsed.Some? && text.parsed.value.from in conn.owned
  }

  predicate CanInsert(h: State, c: ConnId) {
    c < |h.conns| && h.conns[c].task.Inserting?
  }

  /** True if `id` is held by another connection whose outbox is not dead. */
  predicate HeldByLivePeer(h: State, c: ConnId, id: NodeId) {
    id in h.nodes && h.nodes[id] != c && h.nodes[id] < |h.conns| && !h.conns[h.nodes[id]].Dead()
  }

  function CorrOf(h: State, s: Serial): Corr {
    if s < |h.frames| && h.frames[s].text.parsed.Some? then h.frames[s].text.parsed.value.corr else ""
  }

  /** The write-locked part of `handle_registration`. */
  function DoInsert(h: State, c: ConnId): State
    requires CanInsert(h, c)
  {
    var t := h.conns[c].task;
    if HeldByLivePeer(h, c, t.id) then
      SetTask(h, c, Replying(t.serial, Reply(Refusal(DuplicateNodeId), CorrOf(h, t.serial), t.id, true), CloseIfFirst(h.conns[c])))
    else SetTask(h.(nodes := h.nodes[t.id := c]), c, Adopting(t.serial, t.id))
  }

  predicate CanAdopt(h: State, c: ConnId) {
    c < |h.conns| && h.conns[c].task.Adopting?
  }

  /** The rest of `handle_registration`: remember the id and accept. */
  function DoAdopt(h: State, c: ConnId): State
    requires CanAdopt(h, c)
  {
    var conn := h.conns[c];
    var t := conn.task;
    var owned := if t.id in conn.owned then conn.owned else conn.owned + [t.id];
    h.(conns := h.conns[c := conn.(owned := owned,
       task := Replying(t.serial, Reply(RegistrationAccepted, CorrOf(h, t.serial), t.id, false), Continue))])
  }

  predicate CanLookup(h: State, c: ConnId) {
    c < |h.conns| && h.conns[c].task.Routing? && h.conns[c].task.text.parsed.Some?
  }

  function Decide(h: State, c: ConnId, s: Serial, text: Text, v: Verdict): State
    requires c < |h.conns|
  {
    SetTask(h, c, Settling(s, text, v)).(verdicts := h.verdicts[s := v])
  }

  /** The bridge check, or `outbox_of`. */
  function DoLookup(h: State, c: ConnId): State
    requires CanLookup(h, c)
  {
    var t := h.conns[c].task;
    var e := t.text.parsed.value;
    if e.CommandRequest? && GridTargeted(e) then
      Decide(h, c, t.serial, t.text, if h.bridge then Bridged else NoBridge)
    else if e.to in h.nodes then SetTask(h, c, Pushing(t.serial, t.text, h.nodes[e.to]))
    else Decide(h, c, t.serial, t.text, Refused(false))
  }

  predicate CanPush(h: State, c: ConnId, r: Outbox.PushResult) {
    && c < |h.conns| && h.conns[c].task.Pushing? && h.conns[c].task.dest < |h.conns|
    && Permits(h.conns[h.conns[c].task.dest], r)
  }

  function VerdictOf(dest: ConnId, r: Outbox.PushResult): Verdict {
    match r
    case Ok => Queued(dest)
    case Full => Refused(true)
    case Closed => Refused(false)
  }

  /** The push of `deliver`; a target that is gone is pruned next. */
  function DoPush(h: State, c: ConnId, r: Outbox.PushResult): State
    requires CanPush(h, c, r)
  {
    var t := h.conns[c].task;
    var v := VerdictOf(t.dest, r);
    SetTask(Push(h, t.dest, Relay(t.serial, t.text), r), c,
            if r.Closed? then Pruning(t.serial, t.text) else Settling(t.serial, t.text, v))
      .(verdicts := h.verdicts[t.serial := v])
  }

  predicate CanPrune(h: State, c: ConnId) {
    c < |h.conns| && h.conns[c].task.Pruning? && h.conns[c].task.text.parsed.Some?
  }

  /** `prune_if_dead`. */
  function PruneIfDead(h: State, id: NodeId): map<NodeId, ConnId> {
    if id in h.nodes && h.nodes[id] < |h.conns| && h.conns[h.nodes[id]].Dead() then h.nodes - {id} else h.nodes
  }

  function DoPrune(h: State, c: ConnId): State
    requires CanPrune(h, c)
  {
    var t := h.conns[c].task;
    SetTask(h, c, Settling(t.serial, t.text, Refused(false))).(nodes := PruneIfDead(h, t.text.parsed.value.to))
  }

  predicate CanSettle(h: State, c: ConnId) {
    c < |h.conns| && h.conns[c].task.Settling? && h.conns[c].task.text.parsed.Some?
  }

  function DoSettle(h: State, c: ConnId): State
    requires CanSettle(h, c)
  {
    var t := h.conns[c].task;
    var e := t.text.parsed.value;
    Tally(SetTask(h, c, AfterVerdict(t.serial, e, t.verdict)), e, t.verdict)
  }

  predicate CanReply(h: State, c: ConnId, r: Outbox.PushResult) {
    c < |h.conns| && h.conns[c].task.Replying? && Permits(h.conns[c], r)
  }

  /** What the handler does once its reply is queued, or could not be. */
  function Replied(conn: Conn, s: Serial, after: After): Conn {
    match after
    case Continue => conn.(task := Idle)
    case CloseAfter => conn.(task := Idle, phase := Exited(true))
    case SpawnAfter => conn.(task := Spawning(s))
  }

  function DoReply(h: State, c: ConnId, r: Outbox.PushResult): State
    requires CanReply(h, c, r)
  {
    var t := h.conns[c].task;
    var h' := Push(h, c, HubReply(t.serial, t.reply), r);
    h'.(conns := h'.conns[c := Replied(h'.conns[c], t.serial, t.after)])
  }

  predicate CanSpawn(h: State, c: ConnId) {
    c < |h.conns| && h.conns[c].task.Spawning?
  }

  function DoSpawn(h: State, c: ConnId): State
    requires CanSpawn(h, c)
  {
    SetTask(h, c, Idle).(jobs := h.jobs[h.conns[c].task.serial := Answering])
  }

  predicate CanFan(h: State, c: ConnId, id: NodeId, r: Outbox.PushResult) {
    && c < |h.conns| && h.conns[c].task.Fanning? && id in h.conns[c].task.targets
    && h.conns[c].task.targets[id] < |h.conns|
    && Permits(h.conns[h.conns[c].task.targets[id]], r)
  }

  /** One target of a broadcast. */
  function DoFan(h: State, c: ConnId, id: NodeId, r: Outbox.PushResult): State
    requires CanFan(h, c, id, r)
  {
    var t := h.conns[c].task;
    SetTask(Push(h, t.targets[id], Relay(t.serial, t.text), r), c, Fanning(t.serial, t.text, t.targets - {id}))
  }

  predicate CanFanEnd(h: State, c: ConnId) {
    c < |h.conns| && h.conns[c].task.Fanning? && h.conns[c].task.targets == map[]
  }

  predicate CanControl(h: State, c: ConnId, m: Message, r: Outbox.PushResult) {
    AtRest(h, c) && (m.Ping? || m.Pong?) && Permits(h.conns[c], r)
  }

  predicate CanCleanup(h: State, c: ConnId) {
    c < |h.conns| && h.conns[c].phase.Exited?
  }

  /** `remove_connection` keeps exactly the entries of other connections. */
  function WithoutConnection(nodes: map<NodeId, ConnId>, c: ConnId): map<NodeId, ConnId> {
    map id | id in nodes && nodes[id] != c :: nodes[id]
  }

  function DoCleanup(h: State, c: ConnId): State
    requires CanCleanup(h, c)
  {
    h.(nodes := WithoutConnection(h.nodes, c),
       conns := h.conns[c := h.conns[c].(phase := Removed(h.conns[c].phase.graceful))])
  }

  predicate CanCloseFrame(h: State, c: ConnId, r: Outbox.PushResult) {
    c < |h.conns| && h.conns[c].phase == Removed(true) && Permits(h.conns[c], r)
  }

  /** The close frame of a graceful end: at most it finds the queue full. */
  function DoCloseFrame(h: State, c: ConnId, r: Outbox.PushResult): State
    requires CanCloseFrame(h, c, r)
  {
    h.(conns := h.conns[c := h.conns[c].(phase := Removed(false), kicked := h.conns[c].kicked || r.Full?)])
  }

  /** The write pump of `c` ends. */
  function DoDie(h: State, c: ConnId): State
    requires c < |h.conns|
  {
    h.(conns := h.conns[c := h.conns[c].(closed := true)])
  }

  predicate CanAnswer(h: State, s: Serial, r: Outbox.PushResult) {
    && s in h.jobs && h.jobs[s].Answering? && s < |h.frames| && h.frames[s].text.parsed.Some?
    && h.frames[s].conn < |h.conns| && Permits(h.conns[h.frames[s].conn], r)
  }

  /** The bridge is done: offer its response to the requesting connection. */
  function DoAnswer(h: State, s: Serial, status: string, r: Outbox.PushResult): State
    requires CanAnswer(h, s, r)
  {
    var answer := GridAnswer(h.frames[s].text.parsed.value, status);
    Push(h, h.frames[s].conn, GridReply(s, answer), r)
      .(jobs := h.jobs[s := if r.Ok? then Finished(true) else Retrying(answer)])
  }

  predicate CanRelocate(h: State, s: Serial) {
    s in h.jobs && h.jobs[s].Retrying?
  }

  /** That connection is gone: look for the node's current one. */
  function DoRelocate(h: State, s: Serial): State
    requires CanRelocate(h, s)
  {
    var answer := h.jobs[s].envelope;
    h.(jobs := h.jobs[s := if answer.to in h.nodes then Redirecting(answer, h.nodes[answer.to]) else Finished(false)])
  }

  predicate CanRetry(h: State, s: Serial, r: Outbox.PushResult) {
    s in h.jobs && h.jobs[s].Redirecting? && h.jobs[s].dest < |h.conns| && Permits(h.conns[h.jobs[s].dest], r)
  }

  function DoRetry(h: State, s: Serial, r: Outbox.PushResult): State
    requires CanRetry(h, s, r)
  {
    Push(h, h.jobs[s].dest, GridReply(s, h.jobs[s].envelope), r).(jobs := h.jobs[s := Finished(r.Ok?)])
  }

  predicate Enabled(h: State, step: Step) {
    match step
    case Connect => true
    case AttachBridge => true
    case Receive(c, _) => AtRest(h, c)
    case Insert(c) => CanInsert(h, c)
    case Adopt(c) => CanAdopt(h, c)
    case Lookup(c) => CanLookup(h, c)
    case PushDest(c, r) => CanPush(h, c, r)
    case Prune(c) => CanPrune(h, c)
    case Settle(c) => CanSettle(h, c)
    case SendReply(c, r) => CanReply(h, c, r)
    case Spawn(c) => CanSpawn(h, c)
    case Fan(c, id, r) => CanFan(h, c, id, r)
    case FanEnd(c) => CanFanEnd(h, c)
    case Control(c, m, r) => CanControl(h, c, m, r)
    case Exit(c) => AtRest(h, c)
    case Cleanup(c) => CanCleanup(h, c)
    case CloseFrame(c, r) => CanCloseFrame(h, c, r)
    case Die(c) => c < |h.conns|
    case BridgeAnswer(s, _, r) => CanAnswer(h, s, r)
    case BridgeLookup(s) => CanRelocate(h, s)
    case BridgeRetry(s, r) => CanRetry(h, s, r)
  }

  function Apply(h: State, step: Step): State
    requires Enabled(h, step)
  {
    match step
    case Connect => DoConnect(h)
    case AttachBridge => DoAttachBridge(h)
    case Receive(c, text) => DoReceive(h, c, text)
    case Insert(c) => DoInsert(h, c)
    case Adopt(c) => DoAdopt(h, c)
    case Lookup(c) => DoLookup(h, c)
    case PushDest(c, r) => DoPush(h, c, r)
    case Prune(c) => DoPrune(h, c)
    case Settle(c) => DoSettle(h, c)
    case SendReply(c, r) => DoReply(h, c, r)
    case Spawn(c) => DoSpawn(h, c)
    case Fan(c, id, r) => DoFan(h, c, id, r)
    case FanEnd(c) => SetTask(h, c, Idle)
    case Control(c, m, r) => Push(h, c, m, r)
    case Exit(c) => Stop(h, c, false)
    case Cleanup(c) => DoCleanup(h, c)
    case CloseFrame(c, r) => DoCloseFrame(h, c, r)
    case Die(c) => DoDie(h, c)
    case BridgeAnswer(s, status, r) => DoAnswer(h, s, status, r)
    case BridgeLookup(s) => DoRelocate(h, s)
    case BridgeRetry(s, r) => DoRetry(h, s, r)
  }

  // ---- Runs ------------------------------------------------------------------------------------

  predicate Legal(h: State, steps: seq<Step>)
    decreases steps
  {
    steps == [] || (Enabled(h, steps[0]) && Legal(Apply(h, steps[0]), steps[1..]))
  }

  function Run(h: State, steps: seq<Step>): State
    requires Legal(h, steps)
    decreases steps
  {
    if steps == [] then h else Run(Apply(h, steps[0]), steps[1..])
  }
}
