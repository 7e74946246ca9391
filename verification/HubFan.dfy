/** Broadcasts, in every run: whom one reaches, and how often. */
module HubFan {
  import opened Protocol
  import opened Hub
  import opened HubInv
  import opened HubEffects
  import opened HubProofs
  import Outbox

  /** One target of a broadcast, and what the push to it returned. */
  datatype Attempt = Attempt(id: NodeId, result: Outbox.PushResult)

  /** The targets connection `c` goes through in these steps, in order. */
  function Attempts(steps: seq<Step>, c: ConnId): seq<Attempt> {
    if steps == [] then []
    else
      Attempted(steps[0], c) + Attempts(steps[1..], c)
  }

  /** Where the accepted ones among the attempts went. */
  function Accepted(targets: map<NodeId, ConnId>, tries: seq<Attempt>): seq<ConnId> {
    if tries == [] then []
    else (if tries[0].result.Ok? && tries[0].id in targets then [targets[tries[0].id]] else []) + Accepted(targets, tries[1..])
  }

  /** The queues that got a copy of frame `s`, in order. */
  function Holders(log: seq<Delivery>, s: Serial): seq<ConnId> {
    if log == [] then []
    else
      var last := log[|log| - 1];
      Holders(log[..|log| - 1], s) +
      if last.message.Relay? && last.message.serial == s then [last.dest] else []
  }

  predicate EachOnce(tries: seq<Attempt>) {
    forall i, j :: 0 <= i < j < |tries| ==> tries[i].id != tries[j].id
  }

  ghost predicate Tried(tries: seq<Attempt>, id: NodeId) {
    exists i :: 0 <= i < |tries| && tries[i].id == id
  }

  lemma HoldersAppend(log: seq<Delivery>, d: Delivery, s: Serial)
    ensures Holders(log + [d], s) == Holders(log, s) + if d.message.Relay? && d.message.serial == s then [d.dest] else []
  {
    assert (log + [d])[..|log|] == log;
  }

  /** A step of anyone else queues no copy of a frame this handler has in hand. */
  lemma OthersQueueNothing(h: State, h': State, c: ConnId, k: ConnId)
    requires ConnsOk(h) && c < |h.conns| && !h.conns[c].task.Idle? && k != c && Effect(h, h', k)
    requires Mine(h, c, h.conns[c].task.serial)
    ensures Holders(h'.log, h.conns[c].task.serial) == Holders(h.log, h.conns[c].task.serial)
    ensures h'.conns[c].task == h.conns[c].task
  {
    var s := h.conns[c].task.serial;
    if h'.log != h.log {
      var d := h'.log[|h.log|];
      assert h'.log == h.log + [d];
      HoldersAppend(h.log, d, s);
      if d.message.Relay? && d.message.serial == s {
        assert TaskOk(h, k);
        BusyIsMine(h, k);
      }
    }
  }

  lemma BusyIsMine(h: State, k: ConnId)
    requires k < |h.conns| && TaskOk(h, k) && !h.conns[k].task.Idle?
    ensures Mine(h, k, h.conns[k].task.serial)
  {
  }

  lemma FanStep(h: State, c: ConnId, id: NodeId, r: Outbox.PushResult)
    requires CanFan(h, c, id, r)
    ensures var h', t := DoFan(h, c, id, r), h.conns[c].task;
            && h'.conns[c].task == Fanning(t.serial, t.text, t.targets - {id})
            && Holders(h'.log, t.serial) == Holders(h.log, t.serial) + if r.Ok? then [t.targets[id]] else []
  {
    var t := h.conns[c].task;
    PushQueues(h, t.targets[id], Relay(t.serial, t.text), r);
    HoldersAppend(h.log, Delivery(t.targets[id], Relay(t.serial, t.text)), t.serial);
  }

  lemma ReceiveElsewhere(h: State, k: ConnId, text: Text, c: ConnId, d: Decision)
    requires AtRest(h, k) && c < |h.conns| && c != k
    ensures var h' := Enact(Record(h, k, text), k, |h.frames|, d);
            h'.log == h.log && |h'.conns| == |h.conns| && h'.conns[c].task == h.conns[c].task
  {
  }

  /** While a broadcast goes out, a step is an attempt on one of its targets or none of its business. */
  ghost predicate FanNext(h: State, h': State, c: ConnId, step: Step) {
    && c < |h.conns| <= |h'.conns| && h.conns[c].task.Fanning?
    && var t := h.conns[c].task;
       if step.Fan? && step.c == c
       then && step.id in t.targets && h'.conns[c].task == Fanning(t.serial, t.text, t.targets - {step.id})
            && Holders(h'.log, t.serial) == Holders(h.log, t.serial) + if step.r.Ok? then [t.targets[step.id]] else []
       else h'.conns[c].task == t && Holders(h'.log, t.serial) == Holders(h.log, t.serial)
  }

  lemma OnlyFans(h: State, c: ConnId, step: Step)
    requires c < |h.conns| && h.conns[c].task.Fanning? && h.conns[c].phase.Running? && Enabled(h, step)
    requires Actor(h, step) == c && step != FanEnd(c)
    ensures step.Fan? && step.c == c
  {
  }

  lemma ReceiveNext(h: State, c: ConnId, k: ConnId, text: Text)
    requires AtRest(h, k) && c < |h.conns| && h.conns[c].task.Fanning?
    ensures FanNext(h, DoReceive(h, k, text), c, Receive(k, text))
  {
    ReceiveElsewhere(h, k, text, c, HandleText(h, h.conns[k], |h.frames|, text));
  }

  lemma FanFanNext(h: State, c: ConnId, id: NodeId, r: Outbox.PushResult)
    requires CanFan(h, c, id, r)
    ensures FanNext(h, DoFan(h, c, id, r), c, Fan(c, id, r))
  {
    FanStep(h, c, id, r);
  }

  lemma OneStep(h: State, c: ConnId, step: Step)
    requires ConnsOk(h) && c < |h.conns| && h.conns[c].task.Fanning? && Enabled(h, step) && step != FanEnd(c)
    ensures FanNext(h, Apply(h, step), c, step)
  {
    assert TaskOk(h, c);
    if step.Receive? {
      ReceiveNext(h, c, step.c, step.text);
    } else if step.Fan? && step.c == c {
      FanFanNext(h, c, step.id, step.r);
    } else {
      if Actor(h, step) == c {
        OnlyFans(h, c, step);
      }
      StepEffect(h, step);
      OthersQueueNothing(h, Apply(h, step), c, Actor(h, step));
    }
  }

  predicate NoEnd(steps: seq<Step>, c: ConnId) {
    forall k :: 0 <= k < |steps| ==> steps[k] != FanEnd(c)
  }

  lemma {:induction false} AcceptedBelow(targets: map<NodeId, ConnId>, id: NodeId, tries: seq<Attempt>)
    requires !Tried(tries, id)
    ensures Accepted(targets - {id}, tries) == Accepted(targets, tries)
  {
    if tries != [] {
      assert tries[0].id != id;
      forall i | 0 <= i < |tries[1..]| ensures tries[1..][i].id != id {
        assert tries[1..][i] == tries[i + 1];
      }
      AcceptedBelow(targets, id, tries[1..]);
    }
  }

  /** What is left of the targets, what was tried, and what was queued. */
  ghost predicate FanProgress(targets: map<NodeId, ConnId>, left: map<NodeId, ConnId>, tries: seq<Attempt>) {
    && EachOnce(tries)
    && (forall id :: id in targets && id !in left <==> Tried(tries, id))
    && (forall id :: id in left ==> id in targets && left[id] == targets[id])
  }

  lemma TriedOneMore(targets: map<NodeId, ConnId>, left: map<NodeId, ConnId>, a: Attempt, tries: seq<Attempt>)
    requires a.id in targets && FanProgress(targets - {a.id}, left, tries)
    ensures FanProgress(targets, left, [a] + tries)
    ensures Accepted(targets, [a] + tries) == (if a.result.Ok? then [targets[a.id]] else []) + Accepted(targets - {a.id}, tries)
  {
    var all := [a] + tries;
    assert !Tried(tries, a.id);
    AcceptedBelow(targets, a.id, tries);
    assert all[1..] == tries;
    forall id ensures Tried(all, id) <==> id == a.id || Tried(tries, id) {
      assert all[0].id == a.id;
      if Tried(tries, id) {
        var i :| 0 <= i < |tries| && tries[i].id == id;
        assert all[i + 1].id == id;
      }
    }
    forall i, j | 0 <= i < j < |all| ensures all[i].id != all[j].id {
      if i == 0 {
        assert Tried(tries, tries[j - 1].id);
      }
    }
  }

  /** The attempts so far, and the copies they left. */
  ghost predicate Fanned(h: State, h': State, c: ConnId, tries: seq<Attempt>) {
    && c < |h.conns| && c < |h'.conns| && h.conns[c].task.Fanning? && h'.conns[c].task.Fanning?
    && var t, t' := h.conns[c].task, h'.conns[c].task;
       && t'.serial == t.serial && FanProgress(t.targets, t'.targets, tries)
       && Holders(h'.log, t.serial) == Holders(h.log, t.serial) + Accepted(t.targets, tries)
  }

  function Attempted(step: Step, c: ConnId): seq<Attempt> {
    if step.Fan? && step.c == c then [Attempt(step.id, step.r)] else []
  }

  lemma FannedByOne(targets: map<NodeId, ConnId>, left: map<NodeId, ConnId>, a: Attempt, tries: seq<Attempt>,
                    first: seq<ConnId>, last: seq<ConnId>)
    requires a.id in targets && FanProgress(targets - {a.id}, left, tries)
    requires last == (first + if a.result.Ok? then [targets[a.id]] else []) + Accepted(targets - {a.id}, tries)
    ensures FanProgress(targets, left, [a] + tries) && last == first + Accepted(targets, [a] + tries)
  {
    TriedOneMore(targets, left, a, tries);
  }

  lemma FannedOneMore(h: State, h1: State, h': State, c: ConnId, step: Step, tries: seq<Attempt>)
    requires FanNext(h, h1, c, step) && Fanned(h1, h', c, tries)
    ensures Fanned(h, h', c, Attempted(step, c) + tries)
  {
    var t := h.conns[c].task;
    if step.Fan? && step.c == c {
      FannedByOne(t.targets, h'.conns[c].task.targets, Attempt(step.id, step.r), tries,
                  Holders(h.log, t.serial), Holders(h'.log, t.serial));
    } else {
      assert Attempted(step, c) + tries == tries;
    }
  }

  lemma {:induction false} FanRun(h: State, c: ConnId, steps: seq<Step>)
    requires Inv(h) && c < |h.conns| && h.conns[c].task.Fanning? && Legal(h, steps) && NoEnd(steps, c)
    ensures Fanned(h, Run(h, steps), c, Attempts(steps, c))
    decreases steps
  {
    if steps != [] {
      var step, rest := steps[0], steps[1..];
      OneStep(h, c, step);
      StepKeepsInv(h, step);
      assert NoEnd(rest, c) by {
        forall k | 0 <= k < |rest| ensures rest[k] != FanEnd(c) {
          assert rest[k] == steps[k + 1];
        }
      }
      FanRun(Apply(h, step), c, rest);
      FannedOneMore(h, Apply(h, step), Run(h, steps), c, step, Attempts(rest, c));
    }
  }
}
