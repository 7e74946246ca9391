/** Which frames enter routing: those from a registered sender that are to be passed on, and no others. */
module HubRouting {
  import opened Wrappers
  import opened Protocol
  import opened Hub
  import opened HubEffects
  import opened HubSpec

  /** The sender is registered on this connection, and the envelope is one that is passed on. */
  predicate ToPassOn(conn: Conn, text: Text) {
    text.parsed.Some? && text.parsed.value.from in conn.owned && PassedOn(text.parsed.value)
  }

  lemma DecidesToRoute(h: State, conn: Conn, s: Serial, text: Text)
    ensures var d := HandleText(h, conn, s, text);
            if ToPassOn(conn, text) then d == Next(Routing(s, text)) else d.Next? ==> !d.task.Routing?
  {
  }

  lemma EnactRoutes(h: State, c: ConnId, s: Serial, d: Decision)
    requires c < |h.conns|
    ensures var h' := Enact(h, c, s, d);
            && h'.frames == h.frames && h'.trusted == h.trusted
            && h'.routed == (if d.Next? && d.task.Routing? then h.routed + {s} else h.routed)
            && h'.stats == (if d.Next? then Count(h.stats, d.task) else h.stats)
  {
  }

  lemma ReceiveRoutes(h: State, c: ConnId, text: Text)
    requires AtRest(h, c)
    ensures var h', s, on := DoReceive(h, c, text), |h.frames|, ToPassOn(h.conns[c], text);
            && h'.frames == h.frames + [Received(c, text)]
            && h'.trusted == (if Trusted(h.conns[c], text) then h.trusted + {s} else h.trusted)
            && h'.routed == (if on then h.routed + {s} else h.routed)
            && h'.stats.responses == h.stats.responses + One(on && text.parsed.value.CommandResponse?)
            && h'.stats.data == h.stats.data + One(on && text.parsed.value.DataPayload?)
  {
    DecidesToRoute(h, h.conns[c], |h.frames|, text);
    EnactRoutes(Record(h, c, text), c, |h.frames|, HandleText(h, h.conns[c], |h.frames|, text));
  }

  /** Every frame so far was taken on exactly if it had to be. */
  ghost predicate RoutedExactly(h: State) {
    && (forall s :: s in h.routed ==> s < |h.frames|)
    && (forall s :: s in h.trusted ==> s < |h.frames|)
    && (forall s :: 0 <= s < |h.frames| ==> (s in h.routed <==> s in h.trusted && ToBePassedOn(h, s)))
  }

  predicate ToBePassedOn(h: State, s: Serial) {
    s < |h.frames| && h.frames[s].text.parsed.Some? && PassedOn(h.frames[s].text.parsed.value)
  }

  lemma ReceiveKeepsRouted(h: State, h': State, c: ConnId, text: Text)
    requires c < |h.conns| && RoutedExactly(h) && h'.frames == h.frames + [Received(c, text)]
    requires h'.trusted == if Trusted(h.conns[c], text) then h.trusted + {|h.frames|} else h.trusted
    requires h'.routed == if ToPassOn(h.conns[c], text) then h.routed + {|h.frames|} else h.routed
    ensures RoutedExactly(h')
  {
    assert |h.frames| !in h.routed && |h.frames| !in h.trusted;
    forall s | 0 <= s < |h'.frames| ensures s in h'.routed <==> s in h'.trusted && ToBePassedOn(h', s) {
      assert s < |h.frames| ==> h'.frames[s] == h.frames[s];
    }
  }

  lemma StepKeepsRouted(h: State, step: Step)
    requires RoutedExactly(h) && Enabled(h, step)
    ensures RoutedExactly(Apply(h, step))
  {
    if step.Receive? {
      ReceiveRoutes(h, step.c, step.text);
      ReceiveKeepsRouted(h, Apply(h, step), step.c, step.text);
    } else {
      StepEffect(h, step);
    }
  }

  lemma {:induction false} RunKeepsRouted(h: State, steps: seq<Step>)
    requires RoutedExactly(h) && Legal(h, steps)
    ensures RoutedExactly(Run(h, steps))
    decreases steps
  {
    if steps != [] {
      StepKeepsRouted(h, steps[0]);
      RunKeepsRouted(Apply(h, steps[0]), steps[1..]);
    }
  }
}
