/** What holds in every state of every run of the hub, in the words of its documentation. */
module HubTheorems {
  import opened Wrappers
  import opened Protocol
  import opened Sums
  import opened Hub
  import opened HubInv
  import opened HubStable
  import opened HubGrows
  import opened HubConns
  import opened HubProofs
  import opened HubEffects
  import opened HubRouting
  import opened HubCounts
  import opened HubOrder
  import opened HubFan
  import Outbox
  import OutboxProofs

  // ---- Runs --------------------------------------------------------------------------------

  lemma StartInv(token: Option<string>)
    ensures Inv(Start(token))
  {
  }

  lemma {:induction false} RunKeepsInv(h: State, steps: seq<Step>)
    requires Inv(h) && Legal(h, steps)
    ensures Inv(Run(h, steps))
    decreases steps
  {
    if steps != [] {
      StepKeepsInv(h, steps[0]);
      RunKeepsInv(Apply(h, steps[0]), steps[1..]);
      assert Run(h, steps) == Run(Apply(h, steps[0]), steps[1..]);
    }
  }

  lemma ReachableInv(token: Option<string>, steps: seq<Step>)
    requires Legal(Start(token), steps)
    ensures Inv(Run(Start(token), steps))
  {
    StartInv(token);
    RunKeepsInv(Start(token), steps);
  }

  // ---- Ownership ---------------------------------------------------------------------------

  predicate Live(h: State, c: ConnId) {
    c < |h.conns| && !h.conns[c].Dead() && !h.conns[c].phase.Removed?
  }

  /** A live connection holds each id it registered, and no two live connections hold the same one. */
  lemma OneLiveHolder(token: Option<string>, steps: seq<Step>, c: ConnId, d: ConnId, id: NodeId)
    requires Legal(Start(token), steps)
    requires var h := Run(Start(token), steps); Live(h, c) && id in h.conns[c].owned
    ensures var h := Run(Start(token), steps);
      && id in h.nodes && h.nodes[id] == c
      && (Live(h, d) && id in h.conns[d].owned ==> c == d)
  {
    var h := Run(Start(token), steps);
    ReachableInv(token, steps);
    assert Claims(h.conns[c], id) && Holds(h, c, id);
    if Live(h, d) && id in h.conns[d].owned {
      assert Claims(h.conns[d], id) && Holds(h, d, id);
    }
  }

  ghost function EntriesOf(h: State, c: ConnId): set<NodeId> {
    set id | id in h.nodes && h.nodes[id] == c
  }

  /** One socket never holds more than sixteen ids, in its own list or in the registry. */
  lemma SixteenIdsPerSocket(token: Option<string>, steps: seq<Step>, c: ConnId)
    requires Legal(Start(token), steps)
    requires c < |Run(Start(token), steps).conns|
    ensures var h := Run(Start(token), steps);
      && |h.conns[c].owned| <= MAX_NODE_IDS_PER_SOCKET
      && (forall i, j :: 0 <= i < j < |h.conns[c].owned| ==> h.conns[c].owned[i] != h.conns[c].owned[j])
      && |EntriesOf(h, c)| <= MAX_NODE_IDS_PER_SOCKET
  {
    var h := Run(Start(token), steps);
    ReachableInv(token, steps);
    var conn := h.conns[c];
    assert OwnedOk(h, c) && TaskOk(h, c);
    var ids := if conn.task.Adopting? && conn.task.id !in conn.owned then conn.owned + [conn.task.id] else conn.owned;
    forall id | id in EntriesOf(h, c) ensures id in ids {
      assert Claims(conn, id);
    }
    SubsetOfSeq(EntriesOf(h, c), ids);
  }

  lemma {:induction false} SubsetOfSeq<T>(a: set<T>, s: seq<T>)
    requires forall x :: x in a ==> x in s
    ensures |a| <= |s|
  {
    if s == [] {
      assert a == {};
    } else {
      SubsetOfSeq(a - {s[0]}, s[1..]);
      assert a <= (a - {s[0]}) + {s[0]};
    }
  }

  /** Cleanup drops the entries of its own connection and leaves every other one where it is. */
  lemma CleanupKeepsSuccessors(token: Option<string>, steps: seq<Step>, c: ConnId, id: NodeId)
    requires Legal(Start(token), steps) && CanCleanup(Run(Start(token), steps), c)
    ensures var h := Run(Start(token), steps);
      var h' := Apply(h, Cleanup(c));
      && (id in h'.nodes <==> id in h.nodes && h.nodes[id] != c)
      && (id in h'.nodes ==> h'.nodes[id] == h.nodes[id])
      && (forall d: ConnId :: d != c && Live(h, d) && id in h.conns[d].owned ==> id in h'.nodes && h'.nodes[id] == d)
  {
    var h := Run(Start(token), steps);
    forall d: ConnId | d != c && Live(h, d) && id in h.conns[d].owned
      ensures id in h.nodes && h.nodes[id] == d
    {
      OneLiveHolder(token, steps, d, d, id);
    }
  }

  /** Once a connection is cleaned up, no entry ever names it again. */
  lemma RemovedForGood(token: Option<string>, before: seq<Step>, after: seq<Step>, c: ConnId, id: NodeId)
    requires Legal(Start(token), before)
    requires var h := Run(Start(token), before); c < |h.conns| && h.conns[c].phase.Removed? && Legal(h, after)
    ensures var h' := Run(Run(Start(token), before), after); id in h'.nodes ==> h'.nodes[id] != c
  {
    var h := Run(Start(token), before);
    ReachableInv(token, before);
    RunKeepsInv(h, after);
    RunGrows(h, after);
    assert ConnGrows(h.conns[c], Run(h, after).conns[c]);
  }

  // ---- History -----------------------------------------------------------------------------

  lemma HandlerGrows(h: State, step: Step)
    requires Inv(h) && Enabled(h, step)
    requires step.Receive? || step.Insert? || step.Adopt? || step.Lookup? || step.PushDest? || step.Prune? || step.Settle? || step.SendReply? || step.Spawn? || step.Fan?
    ensures Grows(h, Apply(h, step))
  {
    assert TaskOk(h, step.c);
    match step
    case Spawn(c) => SpawnMoves(h, c);
    case Fan(c, id, r) => FanMoves(h, c, id, r);
    case Receive(c, text) => EnactMoves(h, c, text, HandleText(h, h.conns[c], |h.frames|, text));
    case Insert(c) => InsertMoves(h, c);
    case Adopt(c) => AdoptMoves(h, c);
    case Lookup(c) => LookupMoves(h, c);
    case PushDest(c, r) => PushDestMoves(h, c, r);
    case Prune(c) => PruneMoves(h, c);
    case Settle(c) => SettleMoves(h, c);
    case SendReply(c, r) => ReplyMoves(h, c, r);
  }

  lemma EndGrows(h: State, step: Step)
    requires ConnsOk(h) && Enabled(h, step)
    requires step.FanEnd? || step.Control? || step.Exit? || step.Cleanup? || step.CloseFrame? || step.Die?
    ensures Grows(h, Apply(h, step))
  {
    match step
    case FanEnd(c) => SetTaskMoves(h, c, Idle);
    case Control(c, m, r) => PushMoves(h, c, m, r);
    case Exit(c) => SetConnMoves(h, c, h.conns[c].(task := Idle, phase := Exited(false)));
    case Cleanup(c) => CleanupMoves(h, c);
    case CloseFrame(c, r) => assert TaskOk(h, c); SetConnMoves(h, c, DoCloseFrame(h, c, r).conns[c]);
    case Die(c) => SetConnMoves(h, c, h.conns[c].(closed := true));
  }

  lemma BridgeGrows(h: State, step: Step)
    requires Enabled(h, step)
    requires step.BridgeAnswer? || step.BridgeLookup? || step.BridgeRetry?
    ensures Grows(h, Apply(h, step))
  {
    match step
    case BridgeAnswer(s, status, r) => AnswerMoves(h, s, status, r);
    case BridgeLookup(s) => Ignoring(h, h, DoRelocate(h, s), |h.conns|);
    case BridgeRetry(s, r) => RetryMoves(h, s, r);
  }

  lemma StepGrows(h: State, step: Step)
    requires Inv(h) && Enabled(h, step)
    ensures Grows(h, Apply(h, step))
  {
    if step.FanEnd? || step.Control? || step.Exit? || step.Cleanup? || step.CloseFrame? || step.Die? {
      EndGrows(h, step);
    } else if step.BridgeAnswer? || step.BridgeLookup? || step.BridgeRetry? {
      BridgeGrows(h, step);
    } else if step.Connect? {
      ConnectGrows(h);
    } else if step.AttachBridge? {
      Ignoring(h, h, DoAttachBridge(h), |h.conns|);
    } else {
      HandlerGrows(h, step);
    }
  }

  lemma GrowsTransitive(a: State, b: State, c: State)
    requires Grows(a, b) && Grows(b, c)
    ensures Grows(a, c)
  {
    forall k | 0 <= k < |a.conns|
      ensures ConnGrows(a.conns[k], c.conns[k])
    {
      assert ConnGrows(a.conns[k], b.conns[k]) && ConnGrows(b.conns[k], c.conns[k]);
    }
  }

  lemma {:induction false} RunGrows(h: State, steps: seq<Step>)
    requires Inv(h) && Legal(h, steps)
    ensures Grows(h, Run(h, steps))
    decreases steps
  {
    if steps != [] {
      StepKeepsInv(h, steps[0]);
      StepGrows(h, steps[0]);
      RunGrows(Apply(h, steps[0]), steps[1..]);
      GrowsTransitive(h, Apply(h, steps[0]), Run(h, steps));
    }
  }

  // ---- Provenance --------------------------------------------------------------------------

  lemma ReceiveRecords(h: State, c: ConnId, text: Text, d: Decision)
    requires AtRest(h, c)
    ensures var h' := Enact(Record(h, c, text), c, |h.frames|, d);
            && h'.frames == h.frames + [Received(c, text)]
            && h'.trusted == if Trusted(h.conns[c], text) then h.trusted + {|h.frames|} else h.trusted
  {
  }

  lemma DoReceiveRecords(h: State, c: ConnId, text: Text)
    requires AtRest(h, c)
    ensures var h' := DoReceive(h, c, text);
            && h'.frames == h.frames + [Received(c, text)]
            && h'.trusted == if Trusted(h.conns[c], text) then h.trusted + {|h.frames|} else h.trusted
  {
    ReceiveRecords(h, c, text, HandleText(h, h.conns[c], |h.frames|, text));
  }

  /** `g` is the state of a run in which frame `s` came in, to be recorded for good. */
  predicate ArrivedAt(g: State, step: Step, h: State, s: Serial) {
    && step.Receive? && AtRest(g, step.c) && |g.frames| == s < |h.frames|
    && h.frames[s] == Received(step.c, step.text)
    && (s in h.trusted <==> Trusted(g.conns[step.c], step.text))
  }

  lemma ArrivesNow(h: State, step: Step, rest: seq<Step>)
    requires Inv(h) && step.Receive? && AtRest(h, step.c) && Legal(DoReceive(h, step.c, step.text), rest)
    ensures ArrivedAt(h, step, Run(DoReceive(h, step.c, step.text), rest), |h.frames|)
  {
    ReceiveInv(h, step.c, step.text);
    RunGrows(DoReceive(h, step.c, step.text), rest);
    DoReceiveRecords(h, step.c, step.text);
    assert |h.frames| !in h.trusted;
  }

  /** Every frame came in at some point of the run. */
  lemma {:induction false} Arrival(h: State, steps: seq<Step>, s: Serial) returns (k: nat)
    requires Inv(h) && Legal(h, steps) && |h.frames| <= s < |Run(h, steps).frames|
    ensures k < |steps| && Legal(h, steps[..k])
    ensures ArrivedAt(Run(h, steps[..k]), steps[k], Run(h, steps), s)
    decreases steps
  {
    if steps == [] {
      assert false;
    }
    var step, rest := steps[0], steps[1..];
    if step.Receive? && |h.frames| == s {
      k := 0;
      assert steps[..0] == [];
      ArrivesNow(h, step, rest);
    } else {
      if step.Receive? {
        DoReceiveRecords(h, step.c, step.text);
      } else {
        StepEffect(h, step);
      }
      StepKeepsInv(h, step);
      var j := Arrival(Apply(h, step), rest, s);
      k := j + 1;
      assert steps[..k][0] == step && steps[..k][1..] == rest[..j];
    }
  }

  /**
   Every relayed message is an unmodified frame. When the frame came in, at step `k` of the run, its
   sender was among the ids its connection had registered and had accepted; if the connection was
   live then, the registry named it as the holder. The token was shown before, and the sender is
   never a reserved id.
   */
  lemma RelaysAreGenuine(token: Option<string>, steps: seq<Step>, i: nat) returns (k: nat)
    requires Legal(Start(token), steps)
    requires var h := Run(Start(token), steps); i < |h.log| && h.log[i].message.Relay?
    ensures k < |steps| && Legal(Start(token), steps[..k])
    ensures var h, g := Run(Start(token), steps), Run(Start(token), steps[..k]);
      var s, text := h.log[i].message.serial, h.log[i].message.text;
      && s < |h.frames| && text.parsed.Some? && h.frames[s].text == text
      && var c, from := h.frames[s].conn, text.parsed.value.from;
         && |g.frames| == s && steps[k] == Receive(c, text)
         && c < |g.conns| && from in g.conns[c].owned
         && (Live(g, c) ==> from in g.nodes && g.nodes[from] == c)
         && (exists a: Serial :: a < s && Authentication(g, c, a))
         && ValidNodeId(from) && !Protocol.Reserved(from)
  {
    var h := Run(Start(token), steps);
    ReachableInv(token, steps);
    RelayedWas(h, i);
    StartInv(token);
    k := Arrival(Start(token), steps, h.log[i].message.serial);
    var g, c := Run(Start(token), steps[..k]), steps[k].c;
    ReachableInv(token, steps[..k]);
    OwnerWas(g, c, h.log[i].message.text.parsed.value.from);
    if Live(g, c) {
      OneLiveHolder(token, steps[..k], c, c, h.log[i].message.text.parsed.value.from);
    }
  }

  lemma RelayedWas(h: State, i: nat)
    requires LogOk(h) && i < |h.log| && h.log[i].message.Relay?
    ensures var s, text := h.log[i].message.serial, h.log[i].message.text;
            s < |h.frames| && text.parsed.Some? && h.frames[s].text == text && s in h.trusted
  {
    assert DeliveryOk(h, h.log[i]);
  }

  lemma OwnerWas(g: State, c: ConnId, id: NodeId)
    requires ConnsOk(g) && c < |g.conns| && id in g.conns[c].owned
    ensures ValidNodeId(id) && !Protocol.Reserved(id)
    ensures exists a: Serial :: a < |g.frames| && Authentication(g, c, a)
  {
    assert OwnedOk(g, c);
    var a: Serial :| Authentication(g, c, a);
    assert a < |g.frames|;
  }

  /** A queued envelope signed with a reserved id was made by the hub or by the bridge. */
  lemma ReservedSendersAreGenuine(token: Option<string>, steps: seq<Step>, i: nat)
    requires Legal(Start(token), steps)
    requires var h := Run(Start(token), steps);
      i < |h.log| && Read(h.log[i].message).Some? && Protocol.Reserved(Read(h.log[i].message).value.from)
    ensures var m := Run(Start(token), steps).log[i].message; m.HubReply? || m.GridReply?
  {
    if Run(Start(token), steps).log[i].message.Relay? {
      var k := RelaysAreGenuine(token, steps, i);
    }
  }

  // ---- Routing -----------------------------------------------------------------------------

  lemma {:induction false} CopyIsLogged(log: seq<Delivery>, s: Serial) returns (i: nat)
    requires Copies(log, s) > 0
    ensures i < |log| && log[i].message.Relay? && log[i].message.serial == s
  {
    var last := |log| - 1;
    if log[last].message.Relay? && log[last].message.serial == s {
      i := last;
    } else {
      i := CopyIsLogged(log[..last], s);
    }
  }

  /** The frame was queued for a connection that registered its addressee, or answered to its sender. */
  ghost predicate RightPlace(h: State, s: Serial) {
    && s < |h.frames| && h.frames[s].text.parsed.Some?
    && var e := h.frames[s].text.parsed.value;
       && (s in h.verdicts && h.verdicts[s].Queued? ==>
             h.verdicts[s].dest < |h.conns| && Claims(h.conns[h.verdicts[s].dest], e.to))
       && (forall i :: 0 <= i < |h.log| && h.log[i].message.Relay? && h.log[i].message.serial == s ==>
             s in h.verdicts && h.verdicts[s] == Queued(h.log[i].dest))
       && (forall i :: 0 <= i < |h.log| && h.log[i].message.GridReply? && h.log[i].message.serial == s ==>
             h.log[i].dest == h.frames[s].conn || (h.log[i].dest < |h.conns| && Claims(h.conns[h.log[i].dest], e.from)))
  }

  lemma RoutedToItsPlace(h: State, s: Serial)
    requires HistoryOk(h) && s in h.routed
    ensures RightPlace(h, s)
  {
    assert !IsBroadcast(h, s);
    if s in h.verdicts && h.verdicts[s].Queued? {
      var i := CopyIsLogged(h.log, s);
      assert DeliveryOk(h, h.log[i]);
    }
    forall i | 0 <= i < |h.log| && h.log[i].message.Relay? && h.log[i].message.serial == s
      ensures s in h.verdicts && h.verdicts[s] == Queued(h.log[i].dest)
    {
      assert DeliveryOk(h, h.log[i]);
    }
    forall i | 0 <= i < |h.log| && h.log[i].message.GridReply? && h.log[i].message.serial == s
      ensures h.log[i].dest == h.frames[s].conn ||
              (h.log[i].dest < |h.conns| && Claims(h.conns[h.log[i].dest], h.frames[s].text.parsed.value.from))
    {
      assert DeliveryOk(h, h.log[i]);
    }
  }

  /**
   Every frame that came from a registered sender and is to be passed on ends in one way, for good:
   queued once, at a connection that registered the node it is addressed to; handed to the bridge,
   whose response is queued at most once, for the connection that asked or for one that registered
   the asking node; or refused and never queued.
   */
  lemma OneOutcome(token: Option<string>, before: seq<Step>, after: seq<Step>, s: Serial)
    requires Legal(Start(token), before)
    requires var h := Run(Start(token), before); s in h.trusted && ToBePassedOn(h, s) && Legal(h, after)
    ensures var h := Run(Start(token), before);
      var h' := Run(h, after);
      && Copies(h'.log, s) == (if s in h'.verdicts && h'.verdicts[s].Queued? then 1 else 0)
      && Responses(h'.log, s) <= (if s in h'.verdicts && h'.verdicts[s].Bridged? then 1 else 0)
      && RightPlace(h', s)
      && (s in h.verdicts ==> s in h'.verdicts && h'.verdicts[s] == h.verdicts[s])
      && (s !in h'.verdicts ==> Deciding(h', s))
  {
    var h := Run(Start(token), before);
    var h' := Run(h, after);
    ReachableInv(token, before);
    RunKeepsRouted(Start(token), before);
    RunKeepsInv(h, after);
    RunGrows(h, after);
    assert s in h'.routed && !IsBroadcast(h', s);
    assert s in h'.jobs ==> JobOk(h', s);
    RoutedToItsPlace(h', s);
  }

  /** The hub's ACK means the command was forwarded; its refusal means the frame never is. */
  lemma RepliesAreTrue(token: Option<string>, before: seq<Step>, after: seq<Step>, i: nat)
    requires Legal(Start(token), before)
    requires var h := Run(Start(token), before); i < |h.log| && h.log[i].message.HubReply? && Legal(h, after)
    ensures var h := Run(Start(token), before);
      var h' := Run(h, after);
      var s, reply := h.log[i].message.serial, h.log[i].message.reply;
      && s < |h.frames| && h.frames[s].conn == h.log[i].dest
      && (reply.kind.TargetForwarded? ==> s in h.verdicts && Forwarded(h.verdicts[s]))
      && (reply.kind.Refusal? && !IsBroadcast(h, s) ==> Copies(h'.log, s) == 0 && Responses(h'.log, s) == 0)
  {
    var h := Run(Start(token), before);
    var h' := Run(h, after);
    ReachableInv(token, before);
    RunKeepsInv(h, after);
    RunGrows(h, after);
    assert DeliveryOk(h, h.log[i]);
    var s := h.log[i].message.serial;
    assert s in h'.jobs ==> JobOk(h', s);
    assert s in h'.verdicts ==> s in h'.routed;
  }

  // ---- Counters ----------------------------------------------------------------------------

  lemma {:induction false} RunKeepsCounted(h: State, steps: seq<Step>)
    requires Inv(h) && Counted(h) && Legal(h, steps)
    ensures Counted(Run(h, steps))
    decreases steps
  {
    if steps != [] {
      StepKeepsCounted(h, steps[0]);
      StepKeepsInv(h, steps[0]);
      RunKeepsCounted(Apply(h, steps[0]), steps[1..]);
    }
  }

  /** Commands whose verdict is not out, or not counted yet. */
  ghost function Unsettled(h: State): set<Serial> {
    set s | s in Commands(h) && !Settled(h, s)
  }

  /** The handler of the connection that received frame `s` has it in hand. */
  predicate InHand(h: State, s: Serial) {
    && s < |h.frames| && h.frames[s].conn < |h.conns|
    && var t := h.conns[h.frames[s].conn].task; !t.Idle? && t.serial == s
  }

  lemma PartitionSize(all: set<Serial>, a: set<Serial>, b: set<Serial>, c: set<Serial>, d: set<Serial>)
    requires all == a + b + c + d && a !! b && a !! c && a !! d && b !! c && b !! d && c !! d
    ensures |all| == |a| + |b| + |c| + |d|
  {
    assert |a + b| == |a| + |b|;
    assert |a + b + c| == |a + b| + |c|;
    assert |a + b + c + d| == |a + b + c| + |d|;
  }

  lemma SettledOneWay(h: State, s: Serial)
    requires RoutedOk(h)
    ensures s in Commands(h) <==> s in Acked(h) || s in Nacked(h) || s in Unasked(h) || s in Unsettled(h)
  {
    assert s in h.verdicts ==> s in h.routed;
  }

  lemma OneWayOnly(h: State)
    ensures Acked(h) !! Nacked(h) && Acked(h) !! Unasked(h) && Acked(h) !! Unsettled(h)
    ensures Nacked(h) !! Unasked(h) && Nacked(h) !! Unsettled(h) && Unasked(h) !! Unsettled(h)
  {
  }

  lemma CommandsPartition(h: State)
    requires RoutedOk(h)
    ensures |Commands(h)| == |Acked(h)| + |Nacked(h)| + |Unasked(h)| + |Unsettled(h)|
  {
    assert Commands(h) == Acked(h) + Nacked(h) + Unasked(h) + Unsettled(h) by {
      forall s: Serial
        ensures s in Commands(h) <==> s in Acked(h) || s in Nacked(h) || s in Unasked(h) || s in Unsettled(h)
      {
        SettledOneWay(h, s);
      }
    }
    OneWayOnly(h);
    PartitionSize(Commands(h), Acked(h), Nacked(h), Unasked(h), Unsettled(h));
  }

  lemma UnsettledInHand(h: State, s: Serial)
    requires NoneForgotten(h) && FramesOk(h) && s in Unsettled(h)
    ensures InHand(h, s)
  {
    assert s !in h.verdicts ==> Deciding(h, s);
  }

  /**
   The counters say what happened: commands received, commands forwarded and acknowledged, commands
   refused. With those forwarded without an ACK and those a handler has in hand at this moment, they
   make up all commands, in every state.
   */
  lemma CommandsBalance(token: Option<string>, steps: seq<Step>)
    requires Legal(Start(token), steps)
    ensures var h := Run(Start(token), steps);
      && h.stats.commands == |Commands(h)| && h.stats.acks == |Acked(h)| && h.stats.nacks == |Nacked(h)|
      && h.stats.commands == h.stats.acks + h.stats.nacks + |Unasked(h)| + |Unsettled(h)|
      && (forall s :: s in Unsettled(h) ==> InHand(h, s))
      && |Unsettled(h)| == Sum(h.conns, InFlight)
      && (forall s :: s in Commands(h) <==> s in h.trusted && s < |h.frames| && IsCommand(h.frames[s].text))
  {
    RunKeepsRouted(Start(token), steps);
    StartInv(token);
    ReachableInv(token, steps);
    StartCounted(token);
    RunKeepsCounted(Start(token), steps);
    var h := Run(Start(token), steps);
    CommandsPartition(h);
    forall s | s in Unsettled(h) ensures InHand(h, s) {
      UnsettledInHand(h, s);
    }
  }

  lemma StartCounted(token: Option<string>)
    ensures Counted(Start(token))
  {
    var h := Start(token);
    assert Commands(h) == {} && Acked(h) == {} && Nacked(h) == {} && Unasked(h) == {};
  }

  // ---- Order -------------------------------------------------------------------------------

  lemma {:induction false} CopiesAtLeast(log: seq<Delivery>, s: Serial, i: nat, j: nat)
    requires i < j < |log| && log[i].message.Relay? && log[j].message.Relay?
    requires log[i].message.serial == s && log[j].message.serial == s
    ensures Copies(log, s) >= 2
  {
    var last := |log| - 1;
    if j < last {
      CopiesAtLeast(log[..last], s, i, j);
    } else {
      CopiesPositive(log[..last], s, i);
    }
  }

  lemma {:induction false} CopiesPositive(log: seq<Delivery>, s: Serial, i: nat)
    requires i < |log| && log[i].message.Relay? && log[i].message.serial == s
    ensures Copies(log, s) >= 1
  {
    var last := |log| - 1;
    if i < last {
      CopiesPositive(log[..last], s, i);
    }
  }

  /**
   What the frames of one connection cause is queued in the order in which the frames came in, for
   every receiver: of two relayed frames the later one was received later, unless both are copies of
   one broadcast.
   */
  lemma SenderOrderIsKept(token: Option<string>, steps: seq<Step>, i: nat, j: nat)
    requires Legal(Start(token), steps)
    requires var h := Run(Start(token), steps); i < j < |h.log| && SameSource(h, h.log[i].message, h.log[j].message)
    ensures var h := Run(Start(token), steps);
      var a, b := h.log[i].message, h.log[j].message;
      && a.serial <= b.serial
      && (a.Relay? && b.Relay? && !IsBroadcast(h, a.serial) ==> a.serial < b.serial)
  {
    var h := Run(Start(token), steps);
    RunKeepsOrder(Start(token), steps);
    ReachableInv(token, steps);
    var a, b := h.log[i].message, h.log[j].message;
    if a.Relay? && b.Relay? && a.serial == b.serial {
      CopiesAtLeast(h.log, a.serial, i, j);
    }
  }

  // ---- Broadcasts --------------------------------------------------------------------------

  lemma ReceiveBroadcast(h: State, c: ConnId, text: Text)
    requires AtRest(h, c) && text.parsed.Some? && text.parsed.value.Broadcast? && text.parsed.value.from in h.conns[c].owned
    ensures DoReceive(h, c, text).conns[c].task == Fanning(|h.frames|, text, h.nodes - {text.parsed.value.from})
    ensures DoReceive(h, c, text).log == h.log && |DoReceive(h, c, text).conns| == |h.conns|
  {
  }

  lemma {:induction false} NoCopyYet(log: seq<Delivery>, s: Serial)
    requires forall i :: 0 <= i < |log| && log[i].message.Relay? ==> log[i].message.serial != s
    ensures Holders(log, s) == []
  {
    if log != [] {
      NoCopyYet(log[..|log| - 1], s);
    }
  }

  /**
   A broadcast, however its sending is interleaved with everything else: when it is over, every node
   registered when it came in, but not its sender, has been tried exactly once, and the frame is in
   exactly those queues whose push returned Ok, once for each.
   */
  lemma BroadcastReachesAll(token: Option<string>, before: seq<Step>, c: ConnId, text: Text, steps: seq<Step>)
    requires Legal(Start(token), before)
    requires var h := Run(Start(token), before);
      && AtRest(h, c) && text.parsed.Some? && text.parsed.value.Broadcast? && text.parsed.value.from in h.conns[c].owned
      && Legal(DoReceive(h, c, text), steps) && NoEnd(steps, c) && CanFanEnd(Run(DoReceive(h, c, text), steps), c)
    ensures var h := Run(Start(token), before);
      var targets, tries := h.nodes - {text.parsed.value.from}, Attempts(steps, c);
      && EachOnce(tries) && (forall id :: id in targets <==> Tried(tries, id))
      && Holders(Run(DoReceive(h, c, text), steps).log, |h.frames|) == Accepted(targets, tries)
  {
    var h := Run(Start(token), before);
    ReachableInv(token, before);
    ReceiveInv(h, c, text);
    ReceiveBroadcast(h, c, text);
    FanRun(DoReceive(h, c, text), c, steps);
    forall i | 0 <= i < |h.log| && h.log[i].message.Relay? ensures h.log[i].message.serial != |h.frames| {
      assert DeliveryOk(h, h.log[i]);
    }
    NoCopyYet(h.log, |h.frames|);
  }

  // ---- The hub's pushes are pushes of the real queue ---------------------------------------

  predicate Agrees(conn: Conn, s: Outbox.State) {
    conn.kicked == s.kicked && conn.closed == s.pump.Ended?
  }

  /**
   Whenever a push on the bounded queue returns, the hub's one-step push with the same result is
   permitted and leaves the same marks: the message in the log if and only if it was accepted, and
   the connection kicked if and only if the queue kicked it.
   */
  lemma QueueMeetsHub(h: State, dest: ConnId, m: Message, bytes: nat, s: Outbox.State, step: Outbox.Step, i: nat)
    requires dest < |h.conns| && Agrees(h.conns[dest], s)
    requires Outbox.Inv(s) && Outbox.Enabled(s, step)
    requires var s' := Outbox.Apply(s, step);
      && i < |s'.pushers| && s'.pushers[i].Done? && !(i < |s.pushers| && s.pushers[i].Done?)
      && s'.pushers[i].packet == Outbox.Frame(m, bytes)
    ensures var s' := Outbox.Apply(s, step);
      var r := s'.pushers[i].result;
      && Permits(h.conns[dest], r)
      && Agrees(Push(h, dest, m, r).conns[dest], s')
      && s'.accepted == s.accepted + (if r.Ok? then [Outbox.Frame(m, bytes)] else [])
      && Push(h, dest, m, r).log == h.log + (if r.Ok? then [Delivery(dest, m)] else [])
  {
    OutboxProofs.PushIsAtomic(s, step);
    var s' := Outbox.Apply(s, step);
    assert OutboxProofs.PushEffect(s, s', s'.pushers[i].packet, s'.pushers[i].result);
    assert s'.pump == s.pump;
  }
}
