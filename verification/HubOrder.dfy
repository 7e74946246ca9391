/**
 The order of what one connection causes: a handler works on one frame at a time, so its messages
 enter the queues in the order in which their frames came in.
 */
module HubOrder {
  import opened Protocol
  import opened Hub
  import opened HubInv
  import opened HubEffects

  /** A busy handler works on the newest frame of its connection. */
  ghost predicate Newest(h: State, c: ConnId)
    requires c < |h.conns|
  {
    !h.conns[c].task.Idle? ==>
      && Mine(h, c, h.conns[c].task.serial)
      && forall t :: h.conns[c].task.serial < t < |h.frames| ==> h.frames[t].conn != c
  }

  /** Two queued messages were caused by frames of the same connection. */
  predicate SameSource(h: State, a: Message, b: Message) {
    && FromHandler(a) && FromHandler(b) && a.serial < |h.frames| && b.serial < |h.frames|
    && h.frames[a.serial].conn == h.frames[b.serial].conn
  }

  ghost predicate InOrder(h: State) {
    && (forall c :: 0 <= c < |h.conns| ==> Newest(h, c))
    && (forall i :: 0 <= i < |h.log| && FromHandler(h.log[i].message) ==> h.log[i].message.serial < |h.frames|)
    && (forall i, j :: 0 <= i < j < |h.log| && SameSource(h, h.log[i].message, h.log[j].message) ==>
          h.log[i].message.serial <= h.log[j].message.serial)
  }

  lemma EffectKeepsOrder(h: State, h': State, c: ConnId)
    requires InOrder(h) && Effect(h, h', c)
    ensures InOrder(h')
  {
    forall k | 0 <= k < |h'.conns| ensures Newest(h', k) {
      assert k < |h.conns| ==> Newest(h, k);
    }
    forall i, j | 0 <= i < j < |h'.log| && SameSource(h', h'.log[i].message, h'.log[j].message)
      ensures h'.log[i].message.serial <= h'.log[j].message.serial
    {
      assert h'.log[i] == h.log[i];
      if j < |h.log| {
        assert h'.log[j] == h.log[j];
      } else {
        assert Newest(h, c);
      }
    }
    forall i | 0 <= i < |h'.log| && FromHandler(h'.log[i].message)
      ensures h'.log[i].message.serial < |h'.frames|
    {
      if i < |h.log| {
        assert h'.log[i] == h.log[i];
      } else {
        assert Newest(h, c);
      }
    }
  }

  lemma ReceiveKeepsOrder(h: State, h': State, c: ConnId, text: Text)
    requires InOrder(h) && AtRest(h, c) && OthersStay(h, h', c) && |h'.conns| == |h.conns|
    requires h'.frames == h.frames + [Received(c, text)] && h'.log == h.log
    requires h'.conns[c].task.Idle? || h'.conns[c].task.serial == |h.frames|
    ensures InOrder(h')
  {
    forall k | 0 <= k < |h'.conns| ensures Newest(h', k) {
      assert Newest(h, k);
    }
    forall i, j | 0 <= i < j < |h'.log| && SameSource(h', h'.log[i].message, h'.log[j].message)
      ensures h'.log[i].message.serial <= h'.log[j].message.serial
    {
      assert SameSource(h, h.log[i].message, h.log[j].message);
    }
  }

  lemma ReceiveShape(h: State, c: ConnId, text: Text, d: Decision)
    requires AtRest(h, c) && (d.Next? ==> d.task.Idle? || d.task.serial == |h.frames|)
    ensures var h' := Enact(Record(h, c, text), c, |h.frames|, d);
            && OthersStay(h, h', c) && |h'.conns| == |h.conns|
            && h'.frames == h.frames + [Received(c, text)] && h'.log == h.log
            && (h'.conns[c].task.Idle? || h'.conns[c].task.serial == |h.frames|)
  {
  }

  lemma HandleTextSerial(h: State, conn: Conn, s: Serial, text: Text)
    ensures var d := HandleText(h, conn, s, text); d.Next? ==> !d.task.Idle? && d.task.serial == s
  {
  }

  lemma StepKeepsOrder(h: State, step: Step)
    requires InOrder(h) && Enabled(h, step)
    ensures InOrder(Apply(h, step))
  {
    if step.Receive? {
      var c, text := step.c, step.text;
      var d := HandleText(h, h.conns[c], |h.frames|, text);
      HandleTextSerial(h, h.conns[c], |h.frames|, text);
      ReceiveShape(h, c, text, d);
      ReceiveKeepsOrder(h, DoReceive(h, c, text), c, text);
    } else {
      StepEffect(h, step);
      EffectKeepsOrder(h, Apply(h, step), Actor(h, step));
    }
  }

  lemma {:induction false} RunKeepsOrder(h: State, steps: seq<Step>)
    requires InOrder(h) && Legal(h, steps)
    ensures InOrder(Run(h, steps))
    decreases steps
  {
    if steps != [] {
      StepKeepsOrder(h, steps[0]);
      RunKeepsOrder(Apply(h, steps[0]), steps[1..]);
    }
  }
}
