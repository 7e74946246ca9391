/** Every step of the outbox keeps its invariant, and what that says about whole runs. */
module OutboxProofs {
  import opened Sums
  import opened Outbox

  // ---- Runs --------------------------------------------------------------------------------

  predicate Legal(s: State, steps: seq<Step>)
    decreases steps
  {
    steps == [] || (Enabled(s, steps[0]) && Legal(Apply(s, steps[0]), steps[1..]))
  }

  function Run(s: State, steps: seq<Step>): State
    requires Legal(s, steps)
    decreases steps
  {
    if steps == [] then s else Run(Apply(s, steps[0]), steps[1..])
  }

  // ---- Bookkeeping lemmas ------------------------------------------------------------------

  lemma {:induction false} GrantedConcat(a: seq<Pusher>, b: seq<Pusher>)
    ensures Granted(a + b) == Granted(a) + Granted(b)
  {
    if a == [] {
      assert a + b == b;
    } else {
      assert (a + b)[1..] == a[1..] + b;
      GrantedConcat(a[1..], b);
    }
  }

  /** One pusher moves: its own contribution to `Granted` is the only one that changes. */
  lemma GrantedUpdate(ps: seq<Pusher>, i: nat, p: Pusher)
    requires i < |ps|
    requires !(ps[i].Done? && ps[i].result == Ok)
    ensures Granted(ps[i := p]) ==
            Granted(ps) + (if p.Done? && p.result == Ok then multiset{p.packet} else multiset{})
  {
    var before, after := ps[..i], ps[i + 1..];
    assert ps == before + ([ps[i]] + after);
    assert ps[i := p] == before + ([p] + after);
    GrantedConcat(before, [ps[i]] + after);
    GrantedConcat(before, [p] + after);
    assert ([ps[i]] + after)[1..] == after;
    assert ([p] + after)[1..] == after;
  }

  /** The sums over the cleared pushers after pusher `i` moves to `p`. */
  lemma ClearedSums(ps: seq<Pusher>, i: nat, p: Pusher)
    requires i < |ps|
    ensures Sum(ps[i := p], ClearedWeight) + ClearedWeight(ps[i]) == Sum(ps, ClearedWeight) + ClearedWeight(p)
    ensures Sum(ps[i := p], ClearedHeavy) + ClearedHeavy(ps[i]) == Sum(ps, ClearedHeavy) + ClearedHeavy(p)
  {
    SumUpdate(ps, i, p, ClearedWeight);
    SumUpdate(ps, i, p, ClearedHeavy);
  }

  /** Live bytes never exceed the counter, and a message counts as heavy only if it weighs something. */
  lemma LiveWithinCounter(s: State)
    requires Conserved(s)
    ensures LiveHeavy(s) <= LiveBytes(s) <= s.queued
  {
    SumMonotone(s.channel, Heavy, Weight);
    SumMonotone(s.pushers, ClearedHeavy, ClearedWeight);
    SumMonotone(s.pushers, ClearedWeight, Held);
  }

  /** If live bytes and live heavy messages do not grow, the byte bound stays. */
  lemma BoundKept(s': State, s: State)
    requires Bounded(s) && s'.maxBytes == s.maxBytes
    requires LiveBytes(s') <= LiveBytes(s) && LiveHeavy(s') <= LiveHeavy(s)
    ensures LiveBytes(s') <= s'.maxBytes || LiveHeavy(s') == 1
  {
    if LiveHeavy(s') == 0 {
      NoHeavyNoBytes(s'.channel, Weight, Heavy);
      NoHeavyNoBytes(s'.pushers, ClearedWeight, ClearedHeavy);
    }
  }

  lemma {:induction false} NoHeavyNoBytes<T>(s: seq<T>, weight: T -> nat, heavy: T -> nat)
    requires forall i :: 0 <= i < |s| && heavy(s[i]) == 0 ==> weight(s[i]) == 0
    requires Sum(s, heavy) == 0
    ensures Sum(s, weight) == 0
  {
    if s != [] {
      NoHeavyNoBytes(s[1..], weight, heavy);
    }
  }

  // ---- Each step keeps the invariant -------------------------------------------------------

  /** Steps that move pusher `i` and leave the others where they are. */
  predicate Moves(step: Step) {
    step.FetchAdd? || step.TrySend? || step.Undo? || step.Kick?
  }

  lemma MoveConserves(s: State, step: Step)
    requires Conserved(s) && Enabled(s, step) && Moves(step)
    ensures Conserved(Apply(s, step))
  {
    var s' := Apply(s, step);
    SumUpdate(s.pushers, step.i, s'.pushers[step.i], Held);
    if s'.channel != s.channel {
      SumAppend(s.channel, s.pushers[step.i].packet, Weight);
    }
  }

  lemma ConservedKept(s: State, step: Step)
    requires Conserved(s) && Enabled(s, step)
    ensures Conserved(Apply(s, step))
  {
    if step.Begin? {
      SumAppend(s.pushers, Apply(s, step).pushers[|s.pushers|], Held);
    } else if Moves(step) {
      MoveConserves(s, step);
    } else {
      assert Apply(s, step).pushers == s.pushers;
    }
  }

  lemma BoundedKept(s: State, step: Step)
    requires Conserved(s) && Bounded(s) && Enabled(s, step)
    ensures Bounded(Apply(s, step))
  {
    var s' := Apply(s, step);
    if step.FetchAdd? {
      FetchAddBounded(s, step.i);
    } else {
      assert LiveBytes(s') <= LiveBytes(s) && LiveHeavy(s') <= LiveHeavy(s) by {
        LiveShrinks(s, step);
      }
      BoundKept(s', s);
    }
  }

  /** Only `fetch_add` brings new bytes under the bound. */
  lemma LiveShrinks(s: State, step: Step)
    requires Enabled(s, step) && !step.FetchAdd?
    ensures LiveBytes(Apply(s, step)) <= LiveBytes(s)
    ensures LiveHeavy(Apply(s, step)) <= LiveHeavy(s)
  {
    var s' := Apply(s, step);
    if step.Begin? {
      SumAppend(s.pushers, s'.pushers[|s.pushers|], ClearedWeight);
      SumAppend(s.pushers, s'.pushers[|s.pushers|], ClearedHeavy);
    } else if Moves(step) {
      ClearedSums(s.pushers, step.i, s'.pushers[step.i]);
      SumAppend(s.channel, s.pushers[step.i].packet, Weight);
      SumAppend(s.channel, s.pushers[step.i].packet, Heavy);
    }
  }

  /** Either the counter read zero, and this is the only heavy message, or the sum fits the budget. */
  lemma FetchAddBounded(s: State, i: nat)
    requires Conserved(s) && Bounded(s) && Enabled(s, FetchAdd(i))
    ensures Bounded(Apply(s, FetchAdd(i)))
  {
    var s' := Apply(s, FetchAdd(i));
    ClearedSums(s.pushers, i, s'.pushers[i]);
    LiveWithinCounter(s);
  }

  lemma OrderedKept(s: State, step: Step)
    requires Ordered(s) && Enabled(s, step)
    ensures Ordered(Apply(s, step))
  {
    if step.TrySend? {
      SendOrdered(s, step.i);
    } else if step.PumpRecv? || step.PumpSend? || step.PumpSub? {
      PumpOrdered(s, step);
    } else {
      var s' := Apply(s, step);
      assert s'.accepted == s.accepted && s'.written == s.written;
    }
  }

  lemma SendOrdered(s: State, i: nat)
    requires Ordered(s) && Enabled(s, TrySend(i))
    ensures Ordered(Apply(s, TrySend(i)))
  {
    Regroup(s.written + InHand(s.pump), s.channel, Apply(s, TrySend(i)).channel[|s.channel|..]);
  }

  lemma PumpOrdered(s: State, step: Step)
    requires Ordered(s) && Enabled(s, step) && (step.PumpRecv? || step.PumpSend? || step.PumpSub?)
    ensures Ordered(Apply(s, step))
  {
    if step.PumpRecv? {
      assert s.channel == [s.channel[0]] + s.channel[1..];
      Regroup(s.written, [s.channel[0]], s.channel[1..]);
    } else if step.PumpSend? {
      Regroup(s.written, [s.pump.packet], s.channel);
    }
  }

  lemma Regroup(a: seq<Packet>, b: seq<Packet>, c: seq<Packet>)
    ensures a + b + c == a + (b + c)
  {
  }

  lemma GrantingKept(s: State, step: Step)
    requires Granting(s) && Answered(s) && Enabled(s, step)
    ensures Granting(Apply(s, step))
  {
    if step.Begin? {
      var q := if s.Dead() then Done(step.packet, Closed) else Alive(step.packet);
      GrantedConcat(s.pushers, [q]);
      assert Granted([q]) == multiset{} by { assert [q][1..] == []; }
    } else if Moves(step) {
      MoveGrants(s, step);
    } else {
      assert Apply(s, step).pushers == s.pushers;
    }
  }

  lemma MoveGrants(s: State, step: Step)
    requires Granting(s) && Answered(s) && Enabled(s, step) && Moves(step)
    ensures Granting(Apply(s, step))
  {
    var s', i := Apply(s, step), step.i;
    var q := s'.pushers[i];
    assert !s.pushers[i].Done? && Truthful(s.pushers[i], s.kicked, s.pump.Ended?);
    assert s'.pushers == s.pushers[i := q];
    GrantedUpdate(s.pushers, i, q);
    if q.Done? && q.result == Ok {
      assert s'.accepted == s.accepted + [q.packet];
    } else {
      assert s'.accepted == s.accepted;
    }
  }

  lemma AnsweredKept(s: State, step: Step)
    requires Answered(s) && Enabled(s, step)
    ensures Answered(Apply(s, step))
  {
  }

  lemma StepKeepsInv(s: State, step: Step)
    requires Inv(s) && Enabled(s, step)
    ensures Inv(Apply(s, step))
  {
    ConservedKept(s, step);
    BoundedKept(s, step);
    OrderedKept(s, step);
    GrantingKept(s, step);
    AnsweredKept(s, step);
  }

  lemma {:induction false} RunKeepsInv(s: State, steps: seq<Step>)
    requires Inv(s) && Legal(s, steps)
    ensures Inv(Run(s, steps))
    decreases steps
  {
    if steps != [] {
      StepKeepsInv(s, steps[0]);
      RunKeepsInv(Apply(s, steps[0]), steps[1..]);
    }
  }

  lemma StartInv(maxMessages: nat, maxBytes: nat)
    ensures Inv(Start(maxMessages, maxBytes))
  {
  }

  // ---- What holds in every state of every run ----------------------------------------------

  /** Bytes the channel took that the pump has not given back yet, and how many messages carry them. */
  function AcceptedBytes(s: State): nat { Sum(s.channel, Weight) + HandWeight(s.pump) }

  function AcceptedHeavy(s: State): nat { Sum(s.channel, Heavy) + HandHeavy(s.pump) }

  /** The bytes a step takes off the counter. */
  function Subtracted(s: State, step: Step): nat
    requires Enabled(s, step)
  {
    match step
    case Undo(i) => Weight(s.pushers[i].packet)
    case PumpSub => Weight(s.pump.packet)
    case _ => 0
  }

  /** The bytes of the frames in a list. */
  function TotalBytes(ps: seq<Packet>): nat {
    if ps == [] then 0 else (if ps[0].Frame? then ps[0].bytes else 0) + TotalBytes(ps[1..])
  }

  /** What the channel took and the pump has not counted off: the message in its hand, then the channel. */
  function Backlog(s: State): seq<Packet> {
    (if s.pump.Holding? || s.pump.Sent? then [s.pump.packet] else []) + s.channel
  }

  /** The packets of the pushes between their `fetch_add` and their outcome. */
  function Announced(pushers: seq<Pusher>): seq<Packet> {
    if pushers == [] then []
    else (if pushers[0].Cleared? || pushers[0].Undoing? then [pushers[0].packet] else []) + Announced(pushers[1..])
  }

  lemma {:induction false} WeightIsBytes(ps: seq<Packet>)
    ensures Sum(ps, Weight) == TotalBytes(ps)
  {
    if ps != [] {
      WeightIsBytes(ps[1..]);
    }
  }

  lemma {:induction false} HeldIsAnnounced(pushers: seq<Pusher>)
    ensures Sum(pushers, Held) == TotalBytes(Announced(pushers))
  {
    if pushers != [] {
      HeldIsAnnounced(pushers[1..]);
      var first := if pushers[0].Cleared? || pushers[0].Undoing? then [pushers[0].packet] else [];
      assert Announced(pushers) == first + Announced(pushers[1..]);
      if first != [] {
        assert (first + Announced(pushers[1..]))[1..] == Announced(pushers[1..]);
      } else {
        assert first + Announced(pushers[1..]) == Announced(pushers[1..]);
      }
    }
  }

  lemma BacklogBytes(s: State)
    ensures TotalBytes(Backlog(s)) == AcceptedBytes(s)
  {
    WeightIsBytes(s.channel);
    if s.pump.Holding? || s.pump.Sent? {
      assert Backlog(s)[1..] == s.channel;
    } else {
      assert Backlog(s) == s.channel;
    }
  }

  /**
   While the pump runs, the counter is the bytes in the channel plus those in the pump's hand plus
   those of the pushes between their `fetch_add` and their outcome. Afterwards it also keeps what was
   dropped.
   */
  lemma CounterIsConserved(maxMessages: nat, maxBytes: nat, steps: seq<Step>)
    requires Legal(Start(maxMessages, maxBytes), steps)
    ensures var s := Run(Start(maxMessages, maxBytes), steps);
      && s.queued == s.lost + TotalBytes(Backlog(s)) + TotalBytes(Announced(s.pushers))
      && (!s.pump.Ended? ==> s.lost == 0)
  {
    StartInv(maxMessages, maxBytes);
    RunKeepsInv(Start(maxMessages, maxBytes), steps);
    var s := Run(Start(maxMessages, maxBytes), steps);
    BacklogBytes(s);
    HeldIsAnnounced(s.pushers);
  }

  /** No `fetch_sub` ever takes more than the counter holds. */
  lemma CounterNeverUnderflows(maxMessages: nat, maxBytes: nat, steps: seq<Step>, next: Step)
    requires Legal(Start(maxMessages, maxBytes), steps)
    requires Enabled(Run(Start(maxMessages, maxBytes), steps), next)
    ensures var s := Run(Start(maxMessages, maxBytes), steps);
      0 <= Subtracted(s, next) <= s.queued
  {
    var s := Run(Start(maxMessages, maxBytes), steps);
    StartInv(maxMessages, maxBytes);
    RunKeepsInv(Start(maxMessages, maxBytes), steps);
    if next.Undo? {
      SumAtLeast(s.pushers, next.i, Held);
    }
  }

  /** All bytes of the list are those of its `i`-th packet. */
  predicate AllIn(ps: seq<Packet>, i: nat) {
    i < |ps| && ps[i].Frame? && ps[i].bytes == TotalBytes(ps)
  }

  lemma {:induction false} OneHeavy(ps: seq<Packet>) returns (i: nat)
    requires Sum(ps, Heavy) == 1
    ensures AllIn(ps, i)
  {
    WeightIsBytes(ps);
    if Heavy(ps[0]) == 1 {
      i := 0;
      NoHeavyNoBytes(ps[1..], Weight, Heavy);
      WeightIsBytes(ps[1..]);
    } else {
      i := OneHeavy(ps[1..]);
      i := i + 1;
    }
  }

  lemma BacklogHeavy(s: State)
    ensures Sum(Backlog(s), Heavy) == AcceptedHeavy(s)
  {
    if s.pump.Holding? || s.pump.Sent? {
      assert Backlog(s)[1..] == s.channel;
    } else {
      assert Backlog(s) == s.channel;
    }
  }

  /**
   Memory stays bounded: the backlog is within the byte budget, or all its bytes are those of a single
   message, and there are never more messages in the channel than it has room for.
   */
  lemma MemoryIsBounded(maxMessages: nat, maxBytes: nat, steps: seq<Step>)
    requires Legal(Start(maxMessages, maxBytes), steps)
    ensures var s := Run(Start(maxMessages, maxBytes), steps);
      && (TotalBytes(Backlog(s)) <= maxBytes || exists i :: AllIn(Backlog(s), i))
      && |s.channel| <= (if maxMessages == 0 then 1 else maxMessages)
  {
    var s := Run(Start(maxMessages, maxBytes), steps);
    StartInv(maxMessages, maxBytes);
    RunKeepsInv(Start(maxMessages, maxBytes), steps);
    LimitsFixed(Start(maxMessages, maxBytes), steps);
    BacklogBytes(s);
    BacklogHeavy(s);
    if AcceptedHeavy(s) == 0 {
      NoHeavyNoBytes(s.channel, Weight, Heavy);
    } else if AcceptedHeavy(s) == 1 {
      var i := OneHeavy(Backlog(s));
    }
  }

  lemma {:induction false} LimitsFixed(s: State, steps: seq<Step>)
    requires Legal(s, steps)
    ensures Run(s, steps).capacity == s.capacity && Run(s, steps).maxBytes == s.maxBytes
    decreases steps
  {
    if steps != [] {
      LimitsFixed(Apply(s, steps[0]), steps[1..]);
    }
  }

  /** The socket sees the accepted messages in order, without gaps, and nothing after a close frame. */
  lemma PumpIsFifo(maxMessages: nat, maxBytes: nat, steps: seq<Step>)
    requires Legal(Start(maxMessages, maxBytes), steps)
    ensures var s := Run(Start(maxMessages, maxBytes), steps);
      && s.written <= s.accepted
      && (!s.pump.Ended? ==> s.accepted == s.written + InHand(s.pump) + s.channel)
      && (forall i :: 0 <= i < |s.written| - 1 ==> !s.written[i].Close?)
  {
    StartInv(maxMessages, maxBytes);
    RunKeepsInv(Start(maxMessages, maxBytes), steps);
  }

  /** `Ok` is returned for exactly the messages the channel took, each as often as it was taken. */
  lemma OkMeansAccepted(maxMessages: nat, maxBytes: nat, steps: seq<Step>)
    requires Legal(Start(maxMessages, maxBytes), steps)
    ensures var s := Run(Start(maxMessages, maxBytes), steps);
      Granted(s.pushers) == multiset(s.accepted)
  {
    StartInv(maxMessages, maxBytes);
    RunKeepsInv(Start(maxMessages, maxBytes), steps);
  }

  /** After a push has returned `Full`, every push that starts later returns `Closed`. */
  lemma FullIsFinal(maxMessages: nat, maxBytes: nat, before: seq<Step>, i: nat, after: seq<Step>)
    requires Legal(Start(maxMessages, maxBytes), before)
    requires var s := Run(Start(maxMessages, maxBytes), before);
      && i < |s.pushers| && s.pushers[i].Done? && s.pushers[i].result == Full
      && Legal(s, after)
    ensures var s := Run(Start(maxMessages, maxBytes), before);
      var s' := Run(s, after);
      forall j :: |s.pushers| <= j < |s'.pushers| ==> s'.pushers[j].Done? && s'.pushers[j].result == Closed
  {
    var s := Run(Start(maxMessages, maxBytes), before);
    StartInv(maxMessages, maxBytes);
    RunKeepsInv(Start(maxMessages, maxBytes), before);
    assert Truthful(s.pushers[i], s.kicked, s.pump.Ended?);
    KickedRefusesLater(s, after, |s.pushers|);
    assert RefusedFrom(Run(s, after).pushers, |s.pushers|);
  }

  /** Every push from number `n` on was turned away. */
  predicate RefusedFrom(pushers: seq<Pusher>, n: nat) {
    forall j :: n <= j < |pushers| ==> pushers[j].Done? && pushers[j].result == Closed
  }

  lemma KickedStep(s: State, step: Step, n: nat)
    requires s.kicked && Enabled(s, step) && n <= |s.pushers| && RefusedFrom(s.pushers, n)
    ensures var s' := Apply(s, step); s'.kicked && n <= |s'.pushers| && RefusedFrom(s'.pushers, n)
  {
    if Moves(step) {
      assert step.i < n;
    }
  }

  lemma {:induction false} KickedRefusesLater(s: State, steps: seq<Step>, n: nat)
    requires s.kicked && Legal(s, steps) && n <= |s.pushers| && RefusedFrom(s.pushers, n)
    ensures RefusedFrom(Run(s, steps).pushers, n)
    decreases steps
  {
    if steps != [] {
      KickedStep(s, steps[0], n);
      KickedRefusesLater(Apply(s, steps[0]), steps[1..], n);
      assert Run(s, steps) == Run(Apply(s, steps[0]), steps[1..]);
    }
  }

  // ---- The view the hub has of a push ------------------------------------------------------

  /** What a finished push may do to the connection it was made on. */
  predicate PushEffect(s: State, s': State, p: Packet, r: PushResult) {
    match r
    case Ok => !s.pump.Ended? && s'.accepted == s.accepted + [p] && s'.kicked == s.kicked
    case Full => s'.accepted == s.accepted && s'.kicked
    case Closed => s'.accepted == s.accepted && s.Dead() && s'.kicked == s.kicked
  }

  /**
   Seen from outside, a push happens in one step, when it returns: no other step queues anything or
   kicks, and the connection never comes back to life.
   */
  lemma PushIsAtomic(s: State, step: Step)
    requires Inv(s) && Enabled(s, step)
    ensures var s' := Apply(s, step);
      && |s.pushers| <= |s'.pushers| <= |s.pushers| + 1
      && (s.kicked ==> s'.kicked) && (s.pump.Ended? ==> s'.pump.Ended?)
      && (forall i :: 0 <= i < |s'.pushers| && s'.pushers[i].Done? && !(i < |s.pushers| && s.pushers[i].Done?) ==>
            PushEffect(s, s', s'.pushers[i].packet, s'.pushers[i].result))
      && ((forall i :: 0 <= i < |s'.pushers| && s'.pushers[i].Done? ==> i < |s.pushers| && s.pushers[i].Done?) ==>
            s'.accepted == s.accepted && s'.kicked == s.kicked)
  {
    var s' := Apply(s, step);
    if Moves(step) {
      assert Truthful(s.pushers[step.i], s.kicked, s.pump.Ended?);
      assert s'.pushers == s.pushers[step.i := s'.pushers[step.i]];
      assert s'.pushers[step.i].Done? || s'.accepted == s.accepted;
    } else if !step.Begin? {
      assert s'.pushers == s.pushers && s'.accepted == s.accepted && s'.kicked == s.kicked;
    }
  }
}
