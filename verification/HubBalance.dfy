/** Every counted command is in flight or was answered in exactly one way. */
module HubBalance {
  import opened Protocol
  import opened Sums
  import opened Hub
  import opened HubInv
  import opened HubGrows

  lemma {:induction false} SumSame<T>(a: seq<T>, b: seq<T>, f: T -> nat)
    requires |a| == |b| && forall i :: 0 <= i < |a| ==> f(a[i]) == f(b[i])
    ensures Sum(a, f) == Sum(b, f)
  {
    if a != [] {
      SumSame(a[1..], b[1..], f);
    }
  }

  /** The commands in flight change only by what the actor does. */
  lemma FlightMoves(h: State, h': State, c: ConnId)
    requires Moved(h, h', c)
    ensures c < |h.conns| ==>
      Sum(h'.conns, InFlight) + InFlight(h.conns[c]) == Sum(h.conns, InFlight) + InFlight(h'.conns[c])
    ensures c >= |h.conns| ==> Sum(h'.conns, InFlight) == Sum(h.conns, InFlight)
  {
    if c < |h.conns| {
      SumUpdate(h.conns, c, h'.conns[c], InFlight);
      SumSame(h'.conns, h.conns[c := h'.conns[c]], InFlight);
    } else {
      SumSame(h'.conns, h.conns, InFlight);
    }
  }

  /** No command was counted or settled. */
  lemma BalanceQuiet(h: State, h': State, c: ConnId)
    requires Accounted(h) && Moved(h, h', c) && h'.stats == h.stats && h'.silent == h.silent
    requires c < |h.conns| ==> InFlight(h'.conns[c]) == InFlight(h.conns[c])
    ensures Accounted(h')
  {
    FlightMoves(h, h', c);
  }

  lemma ReceiveBalance(h: State, c: ConnId, text: Text, d: Decision)
    requires Accounted(h) && AtRest(h, c) && (forall s :: s in h.routed ==> s < |h.frames|)
    requires d.Next? ==> !d.task.Pushing? && !d.task.Pruning? && !d.task.Settling?
    ensures Accounted(Enact(Record(h, c, text), c, |h.frames|, d))
  {
    EnactMoves(h, c, text, d);
    FlightMoves(h, Enact(Record(h, c, text), c, |h.frames|, d), c);
  }

  lemma SettledIsLanded(conn: Conn, s: Serial, e: Envelope, v: Verdict)
    ensures InFlight(conn.(task := AfterVerdict(s, e, v))) == 0
  {
  }

  /** A command is counted in exactly one of three ways. */
  lemma TallyAddsOne(h: State, e: Envelope, v: Verdict)
    ensures var h' := Tally(h, e, v);
      && h'.conns == h.conns && h'.stats.commands == h.stats.commands
      && h'.stats.acks + h'.stats.nacks + h'.silent ==
         h.stats.acks + h.stats.nacks + h.silent + if e.CommandRequest? then 1 else 0
  {
  }

  lemma SettleBalance(h: State, c: ConnId)
    requires Accounted(h) && CanSettle(h, c)
    ensures Accounted(DoSettle(h, c))
  {
    var t := h.conns[c].task;
    var e := t.text.parsed.value;
    var h1 := SetTask(h, c, AfterVerdict(t.serial, e, t.verdict));
    SetTaskMoves(h, c, AfterVerdict(t.serial, e, t.verdict));
    FlightMoves(h, h1, c);
    SettledIsLanded(h.conns[c], t.serial, e, t.verdict);
    TallyAddsOne(h1, e, t.verdict);
  }

  lemma ConnectBalance(h: State)
    requires Accounted(h)
    ensures Accounted(DoConnect(h))
  {
    SumAppend(h.conns, Conn(Running, [], false, false, Idle), InFlight);
  }
}
