/** The hub's counters say what the history says: how many commands came, and how each ended. */
module HubCounts {
  import opened Wrappers
  import opened Protocol
  import opened Hub
  import opened HubInv
  import opened HubEffects
  import Outbox

  /** The frame a handler has a verdict on and has not counted yet. */
  predicate Uncounted(task: Task, s: Serial) {
    (task.Pruning? || task.Settling?) && task.serial == s
  }

  /** Frame `s` is a command whose verdict has been counted. */
  predicate Settled(h: State, s: Serial) {
    && s in h.verdicts && s < |h.frames| && IsCommand(h.frames[s].text)
    && !(h.frames[s].conn < |h.conns| && Uncounted(h.conns[h.frames[s].conn].task, s))
  }

  /** The commands received, and what became of those that are settled, read off the history. */
  ghost function Commands(h: State): set<Serial> {
    set s | s in h.routed && s < |h.frames| && IsCommand(h.frames[s].text)
  }

  ghost function Acked(h: State): set<Serial> {
    set s | s in h.verdicts && Settled(h, s) && Forwarded(h.verdicts[s]) && h.frames[s].text.parsed.value.requireAck
  }

  ghost function Unasked(h: State): set<Serial> {
    set s | s in h.verdicts && Settled(h, s) && Forwarded(h.verdicts[s]) && !h.frames[s].text.parsed.value.requireAck
  }

  ghost function Nacked(h: State): set<Serial> {
    set s | s in h.verdicts && Settled(h, s) && !Forwarded(h.verdicts[s])
  }

  ghost predicate Counted(h: State) {
    && h.stats.commands == |Commands(h)|
    && h.stats.acks == |Acked(h)| && h.stats.nacks == |Nacked(h)| && h.silent == |Unasked(h)|
  }

  // ---- Steps that decide and count nothing -------------------------------------------------

  lemma SettledSame(h: State, h': State, s: Serial)
    requires s < |h.frames| ==> s < |h'.frames| && h'.frames[s] == h.frames[s] && h.frames[s].conn < |h.conns|
    requires s in h'.verdicts <==> s in h.verdicts
    requires s in h.verdicts ==> s < |h.frames|
    requires s < |h.frames| ==> h.frames[s].conn < |h'.conns|
    requires s < |h.frames| ==> SameDebt(h.conns[h.frames[s].conn].task, h'.conns[h.frames[s].conn].task)
    ensures Settled(h', s) <==> Settled(h, s)
  {
  }

  ghost predicate SameSettled(h: State, h': State) {
    && h.frames <= h'.frames
    && (forall s :: Settled(h', s) <==> Settled(h, s))
    && (forall s :: Settled(h, s) ==> h'.verdicts[s] == h.verdicts[s])
  }

  lemma SameSets(h: State, h': State)
    requires SameSettled(h, h')
    ensures Acked(h') == Acked(h) && Nacked(h') == Nacked(h) && Unasked(h') == Unasked(h)
  {
  }

  lemma CountedQuiet(h: State, h': State, c: ConnId)
    requires Counted(h) && FramesOk(h) && RoutedOk(h) && Quiet(h, h', c)
    ensures Counted(h')
  {
    forall s: Serial ensures Settled(h', s) <==> Settled(h, s) {
      SettledSame(h, h', s);
    }
    assert Commands(h') == Commands(h);
    SameSets(h, h');
  }

  /** A verdict is recorded that its handler has yet to count. */
  lemma CountedDecided(h: State, h': State, c: ConnId, s: Serial, v: Verdict)
    requires Counted(h) && FramesOk(h) && RoutedOk(h) && OthersStay(h, h', c) && Mine(h, c, s) && s !in h.verdicts
    requires h'.frames == h.frames && h'.routed == h.routed && h'.verdicts == h.verdicts[s := v]
    requires h'.stats == h.stats && h'.silent == h.silent
    requires !h.conns[c].task.Pruning? && !h.conns[c].task.Settling? && Uncounted(h'.conns[c].task, s)
    ensures Counted(h')
  {
    forall t: Serial ensures Settled(h', t) <==> Settled(h, t) {
      if t < |h.frames| && t != s && h.frames[t].conn == c {
        assert !Uncounted(h'.conns[c].task, t);
      }
    }
    assert Commands(h') == Commands(h);
    SameSets(h, h');
  }

  // ---- Receiving and settling --------------------------------------------------------------

  lemma ReceivedSettled(h: State, h': State, c: ConnId, text: Text)
    requires FramesOk(h) && RoutedOk(h) && OthersStay(h, h', c) && c < |h.conns|
    requires h'.frames == h.frames + [Received(c, text)] && h'.verdicts == h.verdicts
    requires SameDebt(h.conns[c].task, h'.conns[c].task)
    ensures SameSettled(h, h')
  {
    forall t: Serial ensures Settled(h', t) <==> Settled(h, t) {
      SettledSame(h, h', t);
    }
  }

  lemma ReceivedCommands(h: State, h': State, c: ConnId, text: Text, entered: bool)
    requires RoutedOk(h) && h'.frames == h.frames + [Received(c, text)]
    requires h'.routed == if entered then h.routed + {|h.frames|} else h.routed
    ensures Commands(h') == if entered && IsCommand(text) then Commands(h) + {|h.frames|} else Commands(h)
  {
  }

  lemma EnactShape(h: State, c: ConnId, text: Text, d: Decision)
    requires AtRest(h, c)
    requires d.Next? ==> !d.task.Pruning? && !d.task.Settling? && (d.task.Routing? ==> d.task.text == text)
    ensures var h', entered := Enact(Record(h, c, text), c, |h.frames|, d), d.Next? && d.task.Routing?;
            && OthersStay(h, h', c) && SameDebt(h.conns[c].task, h'.conns[c].task)
            && h'.frames == h.frames + [Received(c, text)] && h'.verdicts == h.verdicts && h'.silent == h.silent
            && h'.routed == (if entered then h.routed + {|h.frames|} else h.routed)
            && h'.stats.acks == h.stats.acks && h'.stats.nacks == h.stats.nacks
            && h'.stats.commands == h.stats.commands + if entered && IsCommand(text) then 1 else 0
  {
  }

  lemma ReceiveCounted(h: State, c: ConnId, text: Text, d: Decision)
    requires Counted(h) && FramesOk(h) && RoutedOk(h) && AtRest(h, c)
    requires d.Next? ==> !d.task.Pruning? && !d.task.Settling? && (d.task.Routing? ==> d.task.text == text)
    ensures Counted(Enact(Record(h, c, text), c, |h.frames|, d))
  {
    var h' := Enact(Record(h, c, text), c, |h.frames|, d);
    EnactShape(h, c, text, d);
    ReceivedSettled(h, h', c, text);
    SameSets(h, h');
    ReceivedCommands(h, h', c, text, d.Next? && d.task.Routing?);
  }

  /** One more frame is settled. */
  lemma SettledOneMore(h: State, h': State, c: ConnId, s: Serial, e: Envelope)
    requires FramesOk(h) && RoutedOk(h) && OthersStay(h, h', c) && Mine(h, c, s) && s in h.verdicts
    requires h.frames[s].text.parsed == Some(e) && e.CommandRequest? && Uncounted(h.conns[c].task, s)
    requires h'.frames == h.frames && h'.routed == h.routed && h'.verdicts == h.verdicts
    requires !h'.conns[c].task.Pruning? && !h'.conns[c].task.Settling?
    ensures var fwd := Forwarded(h.verdicts[s]);
            && Commands(h') == Commands(h) && s !in Acked(h) && s !in Unasked(h) && s !in Nacked(h)
            && Acked(h') == (if fwd && e.requireAck then Acked(h) + {s} else Acked(h))
            && Unasked(h') == (if fwd && !e.requireAck then Unasked(h) + {s} else Unasked(h))
            && Nacked(h') == (if fwd then Nacked(h) else Nacked(h) + {s})
  {
    forall t: Serial ensures Settled(h', t) <==> Settled(h, t) || t == s {
      if t < |h.frames| && t != s && h.frames[t].conn == c {
        assert !Uncounted(h.conns[c].task, t) && !Uncounted(h'.conns[c].task, t);
      }
    }
  }

  lemma CommandSettled(h: State, h': State, c: ConnId, s: Serial, e: Envelope)
    requires Counted(h) && FramesOk(h) && RoutedOk(h) && OthersStay(h, h', c) && Mine(h, c, s) && s in h.verdicts
    requires h.frames[s].text.parsed == Some(e) && e.CommandRequest? && Uncounted(h.conns[c].task, s)
    requires h'.frames == h.frames && h'.routed == h.routed && h'.verdicts == h.verdicts
    requires !h'.conns[c].task.Pruning? && !h'.conns[c].task.Settling?
    requires h'.stats.commands == h.stats.commands
    requires var fwd := Forwarded(h.verdicts[s]);
             && h'.stats.acks == h.stats.acks + (if fwd && e.requireAck then 1 else 0)
             && h'.silent == h.silent + (if fwd && !e.requireAck then 1 else 0)
             && h'.stats.nacks == h.stats.nacks + (if fwd then 0 else 1)
    ensures Counted(h')
  {
    SettledOneMore(h, h', c, s, e);
  }

  /** The verdict is counted, in exactly one of three ways. */
  lemma SettleCounted(h: State, c: ConnId)
    requires Counted(h) && FramesOk(h) && RoutedOk(h) && CanSettle(h, c) && ConnsOk(h)
    ensures Counted(DoSettle(h, c))
  {
    var h', t := DoSettle(h, c), h.conns[c].task;
    var e := t.text.parsed.value;
    SettleShape(h, c);
    SettlingTask(h, c);
    if e.CommandRequest? {
      CommandSettled(h, h', c, t.serial, e);
    } else {
      PeerSettled(h, h', c, t.serial);
    }
  }

  lemma SettlingTask(h: State, c: ConnId)
    requires CanSettle(h, c) && ConnsOk(h)
    ensures var t := h.conns[c].task;
            Mine(h, c, t.serial) && h.frames[t.serial].text == t.text && t.serial in h.verdicts && h.verdicts[t.serial] == t.verdict
  {
    assert TaskOk(h, c);
  }

  lemma DecidingTask(h: State, c: ConnId)
    requires c < |h.conns| && ConnsOk(h) && (h.conns[c].task.Routing? || h.conns[c].task.Pushing?)
    ensures Mine(h, c, h.conns[c].task.serial) && h.conns[c].task.serial !in h.verdicts
  {
    assert TaskOk(h, c);
  }

  lemma SettleShape(h: State, c: ConnId)
    requires CanSettle(h, c)
    ensures var h', e, fwd := DoSettle(h, c), h.conns[c].task.text.parsed.value, Forwarded(h.conns[c].task.verdict);
            && OthersStay(h, h', c) && h'.frames == h.frames && h'.routed == h.routed && h'.verdicts == h.verdicts
            && !h'.conns[c].task.Pruning? && !h'.conns[c].task.Settling?
            && h'.stats.commands == h.stats.commands
            && (!e.CommandRequest? ==> h'.stats == h.stats && h'.silent == h.silent)
            && (e.CommandRequest? ==>
                  && h'.stats.acks == h.stats.acks + (if fwd && e.requireAck then 1 else 0)
                  && h'.silent == h.silent + (if fwd && !e.requireAck then 1 else 0)
                  && h'.stats.nacks == h.stats.nacks + (if fwd then 0 else 1))
  {
  }

  /** What is no command is not counted. */
  lemma PeerSettled(h: State, h': State, c: ConnId, s: Serial)
    requires Counted(h) && FramesOk(h) && RoutedOk(h) && OthersStay(h, h', c) && Mine(h, c, s)
    requires !IsCommand(h.frames[s].text) && Uncounted(h.conns[c].task, s)
    requires h'.frames == h.frames && h'.routed == h.routed && h'.verdicts == h.verdicts
    requires h'.stats == h.stats && h'.silent == h.silent
    requires !h'.conns[c].task.Pruning? && !h'.conns[c].task.Settling?
    ensures Counted(h')
  {
    forall t: Serial ensures Settled(h', t) <==> Settled(h, t) {
      if t < |h.frames| && t != s && h.frames[t].conn == c {
        assert !Uncounted(h.conns[c].task, t) && !Uncounted(h'.conns[c].task, t);
      }
    }
    assert Commands(h') == Commands(h);
    SameSets(h, h');
  }

  // ---- Every step --------------------------------------------------------------------------

  lemma LookupCounted(h: State, c: ConnId)
    requires Counted(h) && FramesOk(h) && RoutedOk(h) && ConnsOk(h) && CanLookup(h, c)
    ensures Counted(DoLookup(h, c))
  {
    var h', t := DoLookup(h, c), h.conns[c].task;
    DecidingTask(h, c);
    LookupShape(h, c);
    if h'.conns[c].task.Pushing? {
      CountedQuiet(h, h', c);
    } else {
      CountedDecided(h, h', c, t.serial, h'.conns[c].task.verdict);
    }
  }

  lemma LookupShape(h: State, c: ConnId)
    requires CanLookup(h, c)
    ensures var h', s := DoLookup(h, c), h.conns[c].task.serial;
            && (h'.conns[c].task.Pushing? ==> Quiet(h, h', c))
            && (!h'.conns[c].task.Pushing? ==>
                  && OthersStay(h, h', c) && h'.frames == h.frames && h'.routed == h.routed
                  && h'.stats == h.stats && h'.silent == h.silent
                  && h'.conns[c].task.Settling? && h'.conns[c].task.serial == s
                  && h'.verdicts == h.verdicts[s := h'.conns[c].task.verdict])
  {
    LookupEffect(h, c);
    var t, e := h.conns[c].task, h.conns[c].task.text.parsed.value;
    if e.CommandRequest? && GridTargeted(e) {
      assert DoLookup(h, c) == Decide(h, c, t.serial, t.text, if h.bridge then Bridged else NoBridge);
    } else if e.to in h.nodes {
      assert DoLookup(h, c) == SetTask(h, c, Pushing(t.serial, t.text, h.nodes[e.to]));
    } else {
      assert DoLookup(h, c) == Decide(h, c, t.serial, t.text, Refused(false));
    }
  }

  lemma PushCounted(h: State, c: ConnId, r: Outbox.PushResult)
    requires Counted(h) && FramesOk(h) && RoutedOk(h) && ConnsOk(h) && CanPush(h, c, r)
    ensures Counted(DoPush(h, c, r))
  {
    DecidingTask(h, c);
    CountedDecided(h, DoPush(h, c, r), c, h.conns[c].task.serial, VerdictOf(h.conns[c].task.dest, r));
  }

  lemma TextCounted(h: State, c: ConnId, text: Text)
    requires Counted(h) && FramesOk(h) && RoutedOk(h) && AtRest(h, c)
    ensures Counted(DoReceive(h, c, text))
  {
    ReceiveCounted(h, c, text, HandleText(h, h.conns[c], |h.frames|, text));
  }

  lemma QuietCounted(h: State, step: Step)
    requires Counted(h) && FramesOk(h) && RoutedOk(h) && Enabled(h, step) && !step.Receive? && !Decides(step)
    ensures Counted(Apply(h, step))
  {
    QuietStep(h, step);
    CountedQuiet(h, Apply(h, step), Actor(h, step));
  }

  lemma StepKeepsCounted(h: State, step: Step)
    requires FramesOk(h) && RoutedOk(h) && ConnsOk(h) && Counted(h) && Enabled(h, step)
    ensures Counted(Apply(h, step))
  {
    if !step.Receive? && !Decides(step) {
      QuietCounted(h, step);
    } else {
      match step
      case Receive(c, text) => TextCounted(h, c, text);
      case Lookup(c) => LookupCounted(h, c);
      case PushDest(c, r) => PushCounted(h, c, r);
      case Settle(c) => SettleCounted(h, c);
    }
  }
}
