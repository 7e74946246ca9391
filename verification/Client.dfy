/**
 The native mesh client (crates/agent_mesh/src/client.rs) on top of the hub. One honest client owns
 one connection of the hub; every other connection may send anything at any time. A world step is a
 step of the hub, or the client sending, reading, answering or giving up.
 */
module Client {
  import opened Wrappers
  import opened Protocol
  import opened Hub

  /** A call that waits for an answer. */
  datatype Waiter = Waiting | Answered(envelope: Envelope) | TimedOut

  /**
   `out` is everything the client has sent, `jobs` the commands it executes, `next` the position in
   its own queue it reads next. `commands` holds the correlation ids of its `send_command` calls.
   */
  datatype Client = Client(
    node: NodeId, regCorr: Corr, verdictSeen: bool,
    out: seq<Envelope>, jobs: seq<Envelope>, next: nat,
    pending: set<Corr>, waiters: map<Corr, Waiter>, commands: set<Corr>)

  // ---- The reader loop ----------------------------------------------------------------------

  /** Hands `e` to the waiter with its correlation id, if there still is one. */
  function Resolve(cl: Client, e: Envelope): Client {
    if e.corr !in cl.pending then cl
    else cl.(pending := cl.pending - {e.corr},
             waiters := if e.corr in cl.waiters && cl.waiters[e.corr].Waiting? then cl.waiters[e.corr := Answered(e)]
                        else cl.waiters)
  }

  predicate ForMe(cl: Client, e: Envelope) {
    e.to == cl.node || e.to == "all" || e.to == "hub"
  }

  predicate IsVerdict(cl: Client, e: Envelope) {
    e.corr == cl.regCorr && (e.NodeRegistrationAck? || e.DeliveryNack?)
  }

  /** One envelope through the reader loop. */
  function Process(cl: Client, e: Envelope): Client {
    if !ForMe(cl, e) then cl
    else if IsVerdict(cl, e) then cl.(verdictSeen := true)
    else
      match e
      case CommandRequest(_, _, _, _, _) => cl.(jobs := cl.jobs + [e])
      case DataPayload(corr, from, _, intact) =>
        var answer := if intact then DeliveryAck(corr, cl.node, from, false)
                      else DeliveryNack(corr, cl.node, from, PayloadCorrupt);
        Resolve(cl.(out := cl.out + [answer]), e)
      case DeliveryAck(_, _, _, forwarded) => if forwarded then cl else Resolve(cl, e)
      case CommandResponse(_, _, _, _) => Resolve(cl, e)
      case DeliveryNack(_, _, _, _) => Resolve(cl, e)
      case NodeListResponse(_, _, _, _) => Resolve(cl, e)
      case NodeRegistrationAck(_, _, _) => Resolve(cl, e)
      case _ => cl
  }

  /** The messages accepted for connection `k`, in order: what its socket delivers a prefix of. */
  function Inbox(log: seq<Delivery>, k: ConnId): seq<Message> {
    if log == [] then []
    else
      var rest := Inbox(log[..|log| - 1], k);
      if log[|log| - 1].dest == k then rest + [log[|log| - 1].message] else rest
  }

  // ---- The world ----------------------------------------------------------------------------

  /** `serials[i]` is the hub's number for the client's `i`-th frame. */
  datatype World = World(hub: State, k: ConnId, client: Client, serials: seq<Serial>)

  datatype WStep =
    | Mesh(step: Step)
    | Carry(raw: string)
    | Register(token: Option<string>)
    | SendCommand(corr: Corr, target: NodeId, command: string)
    | QueryNodes(corr: Corr)
    | SendData(corr: Corr, target: NodeId, intact: bool)
    | SendHeartbeat(corr: Corr)
    | ReadNext
    | Finish(i: nat, status: string)
    | GiveUp(corr: Corr)

  /** A correlation id drawn at random: no call and no frame of this client has it. */
  ghost predicate Fresh(cl: Client, corr: Corr) {
    && corr != cl.regCorr && corr !in cl.waiters && corr !in cl.pending && corr !in cl.commands
    && (forall i :: 0 <= i < |cl.out| ==> cl.out[i].corr != corr)
  }

  predicate OwnFrame(w: World, step: Step) {
    step.Receive? && step.c == w.k
  }

  ghost predicate WEnabled(w: World, s: WStep) {
    match s
    case Mesh(step) => Enabled(w.hub, step) && !OwnFrame(w, step)
    case Carry(_) => |w.serials| < |w.client.out| && AtRest(w.hub, w.k)
    case Register(_) => forall i :: 0 <= i < |w.client.out| ==> !w.client.out[i].NodeRegistration?
    case SendCommand(corr, _, _) => Fresh(w.client, corr)
    case QueryNodes(corr) => Fresh(w.client, corr)
    case SendData(corr, _, _) => Fresh(w.client, corr)
    case SendHeartbeat(corr) => Fresh(w.client, corr)
    case ReadNext => w.client.next < |Inbox(w.hub.log, w.k)|
    case Finish(i, _) => i < |w.client.jobs|
    case GiveUp(corr) => corr in w.client.waiters && w.client.waiters[corr].Waiting?
  }

  function Send(cl: Client, e: Envelope): Client {
    cl.(out := cl.out + [e])
  }

  function DoCarry(w: World, raw: string): World
    requires |w.serials| < |w.client.out| && AtRest(w.hub, w.k)
  {
    w.(hub := DoReceive(w.hub, w.k, Text(raw, Some(w.client.out[|w.serials|]))), serials := w.serials + [|w.hub.frames|])
  }

  function DoRead(w: World): World
    requires w.client.next < |Inbox(w.hub.log, w.k)|
  {
    var cl := w.client.(next := w.client.next + 1);
    match Read(Inbox(w.hub.log, w.k)[w.client.next])
    case None => w.(client := cl)
    case Some(e) => w.(client := Process(cl, e))
  }

  function Ask(cl: Client, corr: Corr, e: Envelope): Client {
    Send(cl, e).(pending := cl.pending + {corr}, waiters := cl.waiters[corr := Waiting])
  }

  function DoSendCommand(cl: Client, corr: Corr, target: NodeId, command: string): Client {
    Ask(cl, corr, CommandRequest(corr, cl.node, target, command, true)).(commands := cl.commands + {corr})
  }

  function DoFinish(cl: Client, i: nat, status: string): Client
    requires i < |cl.jobs|
  {
    Send(cl, CommandResponse(cl.jobs[i].corr, cl.node, cl.jobs[i].from, status)).(jobs := cl.jobs[..i] + cl.jobs[i + 1..])
  }

  ghost function WApply(w: World, s: WStep): World
    requires WEnabled(w, s)
  {
    var cl := w.client;
    match s
    case Mesh(step) => w.(hub := Apply(w.hub, step))
    case Carry(raw) => DoCarry(w, raw)
    case Register(token) => w.(client := Send(cl, NodeRegistration(cl.regCorr, cl.node, "hub", token)))
    case SendCommand(corr, target, command) =>
      w.(client := DoSendCommand(cl, corr, target, command))
    case QueryNodes(corr) => w.(client := Ask(cl, corr, NodeList(corr, cl.node, "hub")))
    case SendData(corr, target, intact) => w.(client := Send(cl, DataPayload(corr, cl.node, target, intact)))
    case SendHeartbeat(corr) => w.(client := Send(cl, Heartbeat(corr, cl.node, "hub")))
    case ReadNext => DoRead(w)
    case Finish(i, status) => w.(client := DoFinish(cl, i, status))
    case GiveUp(corr) => w.(client := cl.(waiters := cl.waiters[corr := TimedOut]))
  }

  /** A client just connected to a hub in any reachable state. */
  function NewClient(hub: State, node: NodeId, regCorr: Corr): World {
    World(DoConnect(hub), |hub.conns|, Client(node, regCorr, false, [], [], 0, {}, map[], {}), [])
  }

  ghost predicate WLegal(w: World, steps: seq<WStep>)
    decreases steps
  {
    steps == [] || (WEnabled(w, steps[0]) && WLegal(WApply(w, steps[0]), steps[1..]))
  }

  ghost function WRun(w: World, steps: seq<WStep>): World
    requires WLegal(w, steps)
    decreases steps
  {
    if steps == [] then w else WRun(WApply(w, steps[0]), steps[1..])
  }
}
