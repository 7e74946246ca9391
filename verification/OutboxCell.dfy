/**
 `push` as the program text has it, on an object whose fields it updates, proved equal to running
 its atomic steps one after another with nothing in between.
 */
module OutboxCell {
  import opened Outbox
  import opened OutboxProofs

  /** How many steps a pusher still has before it is done. */
  function Rank(p: Pusher): nat {
    match p
    case Alive(_) => 4
    case Cleared(_) => 3
    case Undoing(_, _) => 2
    case Kicking(_) => 1
    case Done(_, _) => 0
  }

  function NextStep(p: Pusher, i: nat): Step
    requires !p.Done?
  {
    match p
    case Alive(_) => FetchAdd(i)
    case Cleared(_) => TrySend(i)
    case Undoing(_, _) => Undo(i)
    case Kicking(_) => Kick(i)
  }

  /** Pusher `i` runs to its end while nothing else moves. */
  function Finish(s: State, i: nat): State
    requires i < |s.pushers|
    decreases Rank(s.pushers[i])
  {
    if s.pushers[i].Done? then s else Finish(Apply(s, NextStep(s.pushers[i], i)), i)
  }

  function PushAlone(s: State, p: Packet): State {
    Finish(Apply(s, Begin(p)), |s.pushers|)
  }

  /** When an undisturbed push succeeds, when it is refused, and what it leaves behind. */
  function Outcome(s: State, p: Packet): PushResult {
    if s.Dead() then Closed
    else if (s.queued == 0 || s.queued + TotalBytes([p]) <= s.maxBytes) && |s.channel| < s.capacity then Ok
    else Full
  }

  lemma PushAloneOutcome(s: State, p: Packet)
    ensures var r := Outcome(s, p);
      PushAlone(s, p) ==
        s.(queued := if r == Ok then s.queued + TotalBytes([p]) else s.queued,
           channel := if r == Ok then s.channel + [p] else s.channel,
           accepted := if r == Ok then s.accepted + [p] else s.accepted,
           kicked := s.kicked || r == Full,
           pushers := s.pushers + [Done(p, r)])
  {
    OneWeight(p);
    var i := |s.pushers|;
    var s1 := Apply(s, Begin(p));
    if !s.Dead() {
      var s2 := Apply(s1, FetchAdd(i));
      assert s2.pushers[..i] == s.pushers;
      if s2.pushers[i].Cleared? {
        var s3 := Apply(s2, TrySend(i));
        if s3.pushers[i].Done? {
          assert Finish(s1, i) == Finish(s2, i) == Finish(s3, i) == s3;
        } else {
          UndoAndKick(s3, i, p);
          assert Finish(s1, i) == Finish(s3, i);
        }
      } else {
        UndoAndKick(s2, i, p);
        assert Finish(s1, i) == Finish(s2, i);
      }
    }
  }

  lemma OneWeight(p: Packet)
    ensures Weight(p) == TotalBytes([p])
  {
    assert [p][1..] == [];
  }

  lemma UndoAndKick(s: State, i: nat, p: Packet)
    requires i < |s.pushers| && s.pushers[i] == Undoing(p, Full)
    ensures Finish(s, i) == s.(queued := s.queued - Weight(p), kicked := true, pushers := s.pushers[i := Done(p, Full)])
  {
    var s1 := Apply(s, Undo(i));
    var s2 := Apply(s1, Kick(i));
    assert s2.pushers == s.pushers[i := Done(p, Full)];
    assert Finish(s1, i) == Finish(s2, i) == s2;
  }

  class Cell {
    const capacity: nat
    const maxBytes: nat
    var queued: int
    var channel: seq<Packet>
    var closed: bool
    var kicked: bool
    ghost var view: State

    /** The fields agree with the abstract state, which some run of the outbox reaches. */
    ghost predicate Valid()
      reads this
    {
      && view.capacity == capacity && view.maxBytes == maxBytes
      && view.queued == queued && view.channel == channel
      && view.kicked == kicked && view.pump.Ended? == closed
      && Reachable(view)
    }

    constructor (maxMessages: nat, maxBytes: nat)
      ensures Valid() && view == Start(maxMessages, maxBytes)
    {
      capacity := if maxMessages == 0 then 1 else maxMessages;
      this.maxBytes := maxBytes;
      queued, channel, closed, kicked := 0, [], false, false;
      view := Start(maxMessages, maxBytes);
      StartReachable(maxMessages, maxBytes);
    }

    method Push(p: Packet) returns (r: PushResult)
      requires Valid()
      modifies this
      ensures Valid() && view == PushAlone(old(view), p)
      ensures r == Outcome(old(view), p) && (r == Closed <==> old(kicked || closed))
      ensures kicked == (old(kicked) || r == Full) && closed == old(closed)
    {
      OneWeight(p);
      PushAloneOutcome(view, p);
      PushAloneReachable(view, p);
      view := PushAlone(view, p);
      if closed || kicked {
        return Closed;
      }
      var weight := Weight(p);
      var before := queued;
      queued := queued + weight;
      if before != 0 && before + weight > maxBytes {
        queued := queued - weight;
        kicked := true;
        return Full;
      }
      if |channel| < capacity {
        channel := channel + [p];
        return Ok;
      }
      queued := queued - weight;
      kicked := true;
      return Full;
    }
  }

  /** `s` is a state of some run of the outbox. */
  ghost predicate Reachable(s: State) {
    exists maxMessages: nat, maxBytes: nat, steps: seq<Step> ::
      Legal(Start(maxMessages, maxBytes), steps) && Run(Start(maxMessages, maxBytes), steps) == s
  }

  /**
   In every state some run reaches: a live queue with nothing in it and no other push under way takes
   any message, however large.
   */
  lemma EmptyQueueTakesAnything(s: State, p: Packet)
    requires Reachable(s) && !s.Dead() && Backlog(s) == [] && Announced(s.pushers) == []
    ensures Outcome(s, p) == Ok
  {
    var maxMessages: nat, maxBytes: nat, steps: seq<Step> :|
      Legal(Start(maxMessages, maxBytes), steps) && Run(Start(maxMessages, maxBytes), steps) == s;
    CounterIsConserved(maxMessages, maxBytes, steps);
    LimitsFixed(Start(maxMessages, maxBytes), steps);
    assert |s.channel| <= |Backlog(s)|;
  }

  lemma {:induction false} RunThenStep(s: State, steps: seq<Step>, step: Step)
    requires Legal(s, steps) && Enabled(Run(s, steps), step)
    ensures Legal(s, steps + [step]) && Run(s, steps + [step]) == Apply(Run(s, steps), step)
    decreases steps
  {
    if steps == [] {
      assert [step][1..] == [];
    } else {
      assert (steps + [step])[1..] == steps[1..] + [step];
      RunThenStep(Apply(s, steps[0]), steps[1..], step);
    }
  }

  lemma StepReachable(s: State, step: Step)
    requires Reachable(s) && Enabled(s, step)
    ensures Reachable(Apply(s, step))
  {
    var maxMessages: nat, maxBytes: nat, steps: seq<Step> :|
      Legal(Start(maxMessages, maxBytes), steps) && Run(Start(maxMessages, maxBytes), steps) == s;
    RunThenStep(Start(maxMessages, maxBytes), steps, step);
  }

  lemma {:induction false} FinishReachable(s: State, i: nat)
    requires Reachable(s) && i < |s.pushers|
    ensures Reachable(Finish(s, i))
    decreases Rank(s.pushers[i])
  {
    if !s.pushers[i].Done? {
      var s' := Apply(s, NextStep(s.pushers[i], i));
      StepReachable(s, NextStep(s.pushers[i], i));
      FinishReachable(s', i);
    }
  }

  lemma PushAloneReachable(s: State, p: Packet)
    requires Reachable(s)
    ensures Reachable(PushAlone(s, p))
  {
    StepReachable(s, Begin(p));
    FinishReachable(Apply(s, Begin(p)), |s.pushers|);
  }

  lemma StartReachable(maxMessages: nat, maxBytes: nat)
    ensures Reachable(Start(maxMessages, maxBytes))
  {
    assert Legal(Start(maxMessages, maxBytes), []);
  }
}
