/**
 The bounded outbound queue of one hub connection, at the granularity of its atomic operations
 (crates/agent_mesh/src/hub.rs, `Outbox::push` and the write pump of `handle_socket`).

 Any number of pushers run `push` at the same time, each stopped after any of its atomic
 operations, next to the one write pump. A `Step` is one atomic operation; a run is any legal
 sequence of steps.
 */
module Outbox {
  import opened Protocol
  import opened Sums

  /** A websocket message: `Frame` stands for text, binary, ping and pong, which weigh their length. */
  datatype Packet = Frame(body: Message, bytes: nat) | Close

  function Weight(p: Packet): nat {
    match p
    case Frame(_, bytes) => bytes
    case Close => 0
  }

  function Heavy(p: Packet): nat {
    if Weight(p) == 0 then 0 else 1
  }

  datatype PushResult = Ok | Full | Closed

  /** Where one call of `push` stands. */
  datatype Pusher =
    | Alive(packet: Packet)                       // `is_dead` said no; `fetch_add` comes next
    | Cleared(packet: Packet)                     // weight added, byte test passed; `try_send` next
    | Undoing(packet: Packet, result: PushResult) // refused; `fetch_sub` comes next
    | Kicking(packet: Packet)                     // weight taken back; `kick.cancel()` comes next
    | Done(packet: Packet, result: PushResult)

  /** Where the write pump stands; `Ended` means the receiver is dropped. */
  datatype Pump =
    | Waiting
    | Holding(packet: Packet)
    | Sent(packet: Packet, ok: bool)              // `send` returned; `fetch_sub` comes next
    | Leaving(packet: Packet, ok: bool)           // weight given back, loop left; the receiver is dropped next
    | Ended

  /**
   `capacity` is the channel's message bound and `maxBytes` its byte budget. `pushers` holds every
   push ever started, in the order they started. `accepted`, `written` and `lost` are history:
   what `try_send` took, what the socket took, and the weight dropped unsent with the receiver.
   */
  datatype State = State(
    capacity: nat, maxBytes: nat,
    queued: int, channel: seq<Packet>, pump: Pump, kicked: bool,
    pushers: seq<Pusher>,
    accepted: seq<Packet>, written: seq<Packet>, lost: nat)
  {
    predicate Dead() { pump.Ended? || kicked }
  }

  datatype Step =
    | Begin(packet: Packet)
    | FetchAdd(i: nat)
    | TrySend(i: nat)
    | Undo(i: nat)
    | Kick(i: nat)
    | PumpRecv
    | PumpSend(ok: bool)
    | PumpSub
    | PumpDrop
    | Abort

  /** `max_queued_messages.max(1)` slots, nothing queued, the pump waiting. */
  function Start(maxMessages: nat, maxBytes: nat): State {
    State(if maxMessages == 0 then 1 else maxMessages, maxBytes, 0, [], Waiting, false, [], [], [], 0)
  }

  predicate Enabled(s: State, step: Step) {
    match step
    case Begin(_) => true
    case FetchAdd(i) => i < |s.pushers| && s.pushers[i].Alive?
    case TrySend(i) => i < |s.pushers| && s.pushers[i].Cleared?
    case Undo(i) => i < |s.pushers| && s.pushers[i].Undoing?
    case Kick(i) => i < |s.pushers| && s.pushers[i].Kicking?
    case PumpRecv => s.pump.Waiting? && s.channel != []
    case PumpSend(_) => s.pump.Holding?
    case PumpSub => s.pump.Sent?
    case PumpDrop => s.pump.Leaving?
    case Abort => !s.pump.Ended?
  }

  function Apply(s: State, step: Step): State
    requires Enabled(s, step)
  {
    match step
    case Begin(p) =>
      s.(pushers := s.pushers + [if s.Dead() then Done(p, Closed) else Alive(p)])
    case FetchAdd(i) =>
      var p := s.pushers[i].packet;
      var refused := s.queued != 0 && s.queued + Weight(p) > s.maxBytes;
      s.(queued := s.queued + Weight(p),
         pushers := s.pushers[i := if refused then Undoing(p, Full) else Cleared(p)])
    case TrySend(i) =>
      var p := s.pushers[i].packet;
      if s.pump.Ended? then
        s.(pushers := s.pushers[i := Undoing(p, Closed)])
      else if |s.channel| >= s.capacity then
        s.(pushers := s.pushers[i := Undoing(p, Full)])
      else
        s.(channel := s.channel + [p], accepted := s.accepted + [p],
           pushers := s.pushers[i := Done(p, Ok)])
    case Undo(i) =>
      var p := s.pushers[i].packet;
      s.(queued := s.queued - Weight(p),
         pushers := s.pushers[i := if s.pushers[i].result == Full then Kicking(p)
                                   else Done(p, s.pushers[i].result)])
    case Kick(i) =>
      s.(kicked := true, pushers := s.pushers[i := Done(s.pushers[i].packet, Full)])
    case PumpRecv =>
      s.(channel := s.channel[1..], pump := Holding(s.channel[0]))
    case PumpSend(ok) =>
      s.(written := if ok then s.written + [s.pump.packet] else s.written,
         pump := Sent(s.pump.packet, ok))
    case PumpSub =>
      s.(queued := s.queued - Weight(s.pump.packet),
         pump := if !s.pump.ok || s.pump.packet.Close? then Leaving(s.pump.packet, s.pump.ok) else Waiting)
    case PumpDrop => DropReceiver(s)
    case Abort => DropReceiver(s)
  }

  /** The receiver goes away with everything still in it; no counter is given back. */
  function DropReceiver(s: State): State {
    s.(lost := s.lost + Sum(s.channel, Weight) + HandWeight(s.pump), channel := [], pump := Ended)
  }

  // ---- What the counter counts -------------------------------------------------------------

  function HandWeight(pump: Pump): nat {
    if pump.Holding? || pump.Sent? then Weight(pump.packet) else 0
  }

  function HandHeavy(pump: Pump): nat {
    if pump.Holding? || pump.Sent? then Heavy(pump.packet) else 0
  }

  /** The message taken from the channel that the socket has not taken. */
  function InHand(pump: Pump): seq<Packet> {
    if pump.Holding? || ((pump.Sent? || pump.Leaving?) && !pump.ok) then [pump.packet] else []
  }

  /** Weight a pusher has added and neither handed over nor taken back. */
  function Held(p: Pusher): nat {
    if p.Cleared? || p.Undoing? then Weight(p.packet) else 0
  }

  function ClearedWeight(p: Pusher): nat {
    if p.Cleared? then Weight(p.packet) else 0
  }

  function ClearedHeavy(p: Pusher): nat {
    if p.Cleared? then Heavy(p.packet) else 0
  }

  /** Bytes accepted or about to be offered to the channel, not yet given back by the pump. */
  function LiveBytes(s: State): nat {
    Sum(s.channel, Weight) + HandWeight(s.pump) + Sum(s.pushers, ClearedWeight)
  }

  /** How many of those messages have a non-zero weight. */
  function LiveHeavy(s: State): nat {
    Sum(s.channel, Heavy) + HandHeavy(s.pump) + Sum(s.pushers, ClearedHeavy)
  }

  /** The messages whose push returned `Ok`. */
  ghost function Granted(ps: seq<Pusher>): multiset<Packet> {
    if ps == [] then multiset{} else
      (if ps[0].Done? && ps[0].result == Ok then multiset{ps[0].packet} else multiset{}) + Granted(ps[1..])
  }

  // ---- The invariant ---------------------------------------------------------------------

  ghost predicate Conserved(s: State) {
    && s.queued == s.lost + Sum(s.channel, Weight) + HandWeight(s.pump) + Sum(s.pushers, Held)
    && (!s.pump.Ended? ==> s.lost == 0)
    && (s.pump.Ended? ==> s.channel == [])
  }

  ghost predicate Bounded(s: State) {
    && |s.channel| <= s.capacity
    && (LiveBytes(s) <= s.maxBytes || LiveHeavy(s) == 1)
  }

  ghost predicate Ordered(s: State) {
    && s.written <= s.accepted
    && (!s.pump.Ended? ==> s.accepted == s.written + InHand(s.pump) + s.channel)
    && (forall i :: 0 <= i < |s.written| && s.written[i].Close? ==>
          i == |s.written| - 1 && (s.pump.Ended? || s.pump == Sent(Close, true) || s.pump == Leaving(Close, true)))
    && (s.pump.Sent? && s.pump.ok ==> s.written != [] && s.written[|s.written| - 1] == s.pump.packet)
  }

  /** `Ok` was returned for exactly the accepted messages. */
  ghost predicate Granting(s: State) {
    Granted(s.pushers) == multiset(s.accepted)
  }

  /** What a refused push says about the connection. */
  predicate Truthful(p: Pusher, kicked: bool, ended: bool) {
    match p
    case Done(_, r) => (r == Full ==> kicked) && (r == Closed ==> kicked || ended)
    case Undoing(_, r) => r != Ok && (r == Closed ==> ended)
    case _ => true
  }

  ghost predicate Answered(s: State) {
    forall i :: 0 <= i < |s.pushers| ==> Truthful(s.pushers[i], s.kicked, s.pump.Ended?)
  }

  ghost predicate Inv(s: State) {
    Conserved(s) && Bounded(s) && Ordered(s) && Granting(s) && Answered(s)
  }
}
