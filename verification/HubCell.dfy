/**
 The hub's shared state as an object. Each method is one critical section of the handlers, written
 as the program text has it, and proved equal to the transition the theorems about runs speak of.
 */
module HubCell {
  import opened Protocol
  import opened Hub
  import Outbox
  import OutboxCell

  /** The effect of a delivery's push, field by field. */
  lemma DoPushIs(h: State, c: ConnId, r: Outbox.PushResult)
    requires CanPush(h, c, r)
    ensures var t := h.conns[c].task;
            var conns := if r.Full? then h.conns[t.dest := h.conns[t.dest].(kicked := true)] else h.conns;
            var task := if r.Closed? then Pruning(t.serial, t.text) else Settling(t.serial, t.text, VerdictOf(t.dest, r));
            DoPush(h, c, r) == h.(
              conns := conns[c := conns[c].(task := task)],
              log := if r.Ok? then h.log + [Delivery(t.dest, Relay(t.serial, t.text))] else h.log,
              verdicts := h.verdicts[t.serial := VerdictOf(t.dest, r)])
  {
  }

  class Cell {
    var nodes: map<NodeId, ConnId>
    var conns: seq<Conn>
    var stats: Stats
    var bridge: bool
    var outboxes: seq<OutboxCell.Cell>
    ghost var rest: State

    /** Every connection has a queue of its own, whose state the connection's flags repeat. */
    ghost predicate Valid()
      reads this, outboxes
    {
      && |outboxes| == |conns|
      && (forall i, j :: 0 <= i < j < |outboxes| ==> outboxes[i] != outboxes[j])
      && (forall i :: 0 <= i < |outboxes| ==>
            outboxes[i].Valid() && outboxes[i].kicked == conns[i].kicked && outboxes[i].closed == conns[i].closed)
    }

    ghost function View(): State
      reads this
    {
      rest.(nodes := nodes, conns := conns, stats := stats, bridge := bridge)
    }

    /** Registration under the write lock: refuse an id a live peer holds, take it otherwise. */
    method Insert(c: ConnId, corr: Corr) returns (taken: bool)
      requires CanInsert(View(), c) && corr == CorrOf(View(), conns[c].task.serial)
      modifies this`nodes, this`conns
      ensures View() == DoInsert(old(View()), c)
      ensures taken == HeldByLivePeer(old(View()), c, old(conns[c].task.id))
    {
      var t := conns[c].task;
      taken := false;
      if t.id in nodes {
        var holder := nodes[t.id];
        taken := holder != c && holder < |conns| && !conns[holder].Dead();
      }
      if taken {
        var after := CloseIfFirst(conns[c]);
        conns := conns[c := conns[c].(task := Replying(t.serial, Reply(Refusal(DuplicateNodeId), corr, t.id, true), after))];
      } else {
        nodes := nodes[t.id := c];
        conns := conns[c := conns[c].(task := Adopting(t.serial, t.id))];
      }
    }

    /** The connection remembers its new id, once, and accepts the registration. */
    method Adopt(c: ConnId, corr: Corr)
      requires CanAdopt(View(), c) && corr == CorrOf(View(), conns[c].task.serial)
      modifies this`conns
      ensures View() == DoAdopt(old(View()), c)
    {
      var conn, t := conns[c], conns[c].task;
      if t.id !in conn.owned {
        conn := conn.(owned := conn.owned + [t.id]);
      }
      conns := conns[c := conn.(task := Replying(t.serial, Reply(RegistrationAccepted, corr, t.id, false), Continue))];
    }

    /** Where a routed frame goes: to the bridge, to the outbox registered for its target, or nowhere. */
    method LookUp(c: ConnId)
      requires CanLookup(View(), c)
      modifies this`conns, this`rest
      ensures View() == DoLookup(old(View()), c)
    {
      var t := conns[c].task;
      var e := t.text.parsed.value;
      var task: Task;
      if e.CommandRequest? && GridTargeted(e) {
        task := Settling(t.serial, t.text, if bridge then Bridged else NoBridge);
      } else if e.to in nodes {
        task := Pushing(t.serial, t.text, nodes[e.to]);
      } else {
        task := Settling(t.serial, t.text, Refused(false));
      }
      if task.Settling? {
        rest := rest.(verdicts := rest.verdicts[t.serial := task.verdict]);
      }
      conns := conns[c := conns[c].(task := task)];
    }

    /** A push on the queue of connection `d`, which is kicked if the queue is full. */
    method PushTo(d: ConnId, packet: Outbox.Packet) returns (r: Outbox.PushResult)
      requires Valid() && d < |conns|
      modifies this`conns, outboxes[d]
      ensures Valid() && Permits(old(conns[d]), r)
      ensures r == OutboxCell.Outcome(old(outboxes[d].view), packet)
      ensures outboxes[d].view == OutboxCell.PushAlone(old(outboxes[d].view), packet)
      ensures conns == if r.Full? then old(conns)[d := old(conns)[d].(kicked := true)] else old(conns)
    {
      r := outboxes[d].Push(packet);
      if r.Full? {
        conns := conns[d := conns[d].(kicked := true)];
      }
    }

    /**
     The push of `deliver` on the target's bounded queue: the frame is queued, or the target kicked,
     or found dead, exactly as the queue's state has it.
     */
    method Deliver(c: ConnId, bytes: nat) returns (r: Outbox.PushResult)
      requires Valid() && c < |conns| && conns[c].task.Pushing? && conns[c].task.dest < |conns|
      modifies this`conns, this`rest, outboxes[conns[c].task.dest]
      ensures Valid() && CanPush(old(View()), c, r) && View() == DoPush(old(View()), c, r)
      ensures var t := old(conns[c].task);
        r == OutboxCell.Outcome(old(outboxes[t.dest].view), Outbox.Frame(Relay(t.serial, t.text), bytes))
    {
      var t := conns[c].task;
      ghost var h := View();
      r := PushTo(t.dest, Outbox.Frame(Relay(t.serial, t.text), bytes));
      DoPushIs(h, c, r);
      Note(c, t, r);
    }

    /** The verdict on a frame that was pushed, and what its handler does next. */
    method Note(c: ConnId, t: Task, r: Outbox.PushResult)
      requires Valid() && c < |conns| && t.Pushing?
      modifies this`conns, this`rest
      ensures Valid()
      ensures conns == old(conns)[c := old(conns)[c].(task :=
                if r.Closed? then Pruning(t.serial, t.text) else Settling(t.serial, t.text, VerdictOf(t.dest, r)))]
      ensures rest == old(rest).(
                log := if r.Ok? then old(rest).log + [Delivery(t.dest, Relay(t.serial, t.text))] else old(rest).log,
                verdicts := old(rest).verdicts[t.serial := VerdictOf(t.dest, r)])
    {
      if r.Ok? {
        rest := rest.(log := rest.log + [Delivery(t.dest, Relay(t.serial, t.text))]);
      }
      rest := rest.(verdicts := rest.verdicts[t.serial := VerdictOf(t.dest, r)]);
      var task := if r.Closed? then Pruning(t.serial, t.text) else Settling(t.serial, t.text, VerdictOf(t.dest, r));
      conns := conns[c := conns[c].(task := task)];
    }

    /** The statistics of a routed command, and the reply that follows. */
    method Settle(c: ConnId)
      requires CanSettle(View(), c)
      modifies this`conns, this`stats, this`rest
      ensures View() == DoSettle(old(View()), c)
    {
      var t := conns[c].task;
      var e := t.text.parsed.value;
      if e.CommandRequest? {
        if !t.verdict.Queued? && !t.verdict.Bridged? {
          stats := stats.(nacks := stats.nacks + 1);
        } else if e.requireAck {
          stats := stats.(acks := stats.acks + 1);
        } else {
          rest := rest.(silent := rest.silent + 1);
        }
      }
      conns := conns[c := conns[c].(task := AfterVerdict(t.serial, e, t.verdict))];
    }

    /** Drops a target whose connection is already dead, and nothing else. */
    method PruneDead(c: ConnId)
      requires CanPrune(View(), c)
      modifies this`nodes, this`conns
      ensures View() == DoPrune(old(View()), c)
    {
      var t := conns[c].task;
      var id := t.text.parsed.value.to;
      if id in nodes && nodes[id] < |conns| && conns[nodes[id]].Dead() {
        nodes := nodes - {id};
      }
      conns := conns[c := conns[c].(task := Settling(t.serial, t.text, Refused(false)))];
    }

    /** Visits every entry and drops the ones of connection `c`. */
    method RemoveConnection(c: ConnId)
      requires CanCleanup(View(), c)
      modifies this`nodes, this`conns
      ensures View() == DoCleanup(old(View()), c)
    {
      var todo := nodes.Keys;
      while todo != {}
        invariant todo <= nodes.Keys <= old(nodes).Keys
        invariant forall id :: id in nodes ==> nodes[id] == old(nodes)[id] && (id in todo || nodes[id] != c)
        invariant forall id :: id in old(nodes) && old(nodes)[id] != c ==> id in nodes
        invariant conns == old(conns)
        decreases |todo|
      {
        var id :| id in todo;
        todo := todo - {id};
        if nodes[id] == c {
          nodes := nodes - {id};
        }
      }
      assert nodes == WithoutConnection(old(nodes), c);
      conns := conns[c := conns[c].(phase := Removed(conns[c].phase.graceful))];
    }
  }
}
