/** Which frames the hub takes on to pass along, and how it counts them, in every run. */
module HubTraffic {
  import opened Wrappers
  import opened Protocol
  import opened Hub
  import opened HubInv
  import opened HubEffects
  import opened HubSpec
  import opened HubRouting
  import opened HubProofs
  import opened HubTheorems
  import Outbox

  /**
   In every run, a frame is taken on exactly if its sender was registered on the connection when it
   came in and its envelope is a command, a response, data, or an ACK or NACK not meant for the hub.
   What becomes of it then is never left open, as `HubTheorems.OneOutcome` says.
   */
  lemma TakenOnExactlyIf(token: Option<string>, before: seq<Step>, c: ConnId, text: Text, after: seq<Step>)
    requires Legal(Start(token), before)
    requires var h := Run(Start(token), before); AtRest(h, c) && Legal(DoReceive(h, c, text), after)
    ensures var h := Run(Start(token), before);
            |h.frames| in Run(DoReceive(h, c, text), after).routed <==>
            text.parsed.Some? && text.parsed.value.from in h.conns[c].owned && PassedOn(text.parsed.value)
  {
    ReachableInv(token, before);
    TakenOn(Run(Start(token), before), c, text, after);
  }

  lemma TakenOn(h: State, c: ConnId, text: Text, after: seq<Step>)
    requires Inv(h) && AtRest(h, c) && Legal(DoReceive(h, c, text), after)
    ensures |h.frames| in Run(DoReceive(h, c, text), after).routed <==> ToPassOn(h.conns[c], text)
  {
    ReceiveRoutes(h, c, text);
    var h1 := DoReceive(h, c, text);
    assert h1 == Apply(h, Receive(c, text));
    StepKeepsInv(h, Receive(c, text));
    RunGrows(h1, after);
    assert |h.frames| !in h.routed;
  }

  // ---- Counters ----------------------------------------------------------------------------

  /** Frames from registered senders that are responses, or data. */
  ghost function ResponseFrames(h: State): set<Serial> {
    set s | s in h.trusted && s < |h.frames| && h.frames[s].text.parsed.Some? && h.frames[s].text.parsed.value.CommandResponse?
  }

  ghost function DataFrames(h: State): set<Serial> {
    set s | s in h.trusted && s < |h.frames| && h.frames[s].text.parsed.Some? && h.frames[s].text.parsed.value.DataPayload?
  }

  ghost predicate Tallied(h: State) {
    && h.stats.responses == |ResponseFrames(h)| && h.stats.data == |DataFrames(h)|
    && forall s :: s in h.trusted ==> s < |h.frames|
  }

  lemma ReceiveTallies(h: State, h': State, c: ConnId, text: Text)
    requires c < |h.conns| && Tallied(h)
    requires h'.frames == h.frames + [Received(c, text)]
    requires h'.trusted == if Trusted(h.conns[c], text) then h.trusted + {|h.frames|} else h.trusted
    requires var on := ToPassOn(h.conns[c], text);
             && h'.stats.responses == h.stats.responses + One(on && text.parsed.value.CommandResponse?)
             && h'.stats.data == h.stats.data + One(on && text.parsed.value.DataPayload?)
    ensures Tallied(h')
  {
    var s, on := |h.frames|, ToPassOn(h.conns[c], text);
    forall t: Serial
      ensures t in ResponseFrames(h') <==> t in ResponseFrames(h) || (t == s && on && text.parsed.value.CommandResponse?)
      ensures t in DataFrames(h') <==> t in DataFrames(h) || (t == s && on && text.parsed.value.DataPayload?)
    {
      FrameKept(h, h', c, text, t);
    }
    OneMore(ResponseFrames(h), ResponseFrames(h'), s, on && text.parsed.value.CommandResponse?);
    OneMore(DataFrames(h), DataFrames(h'), s, on && text.parsed.value.DataPayload?);
  }

  lemma FrameKept(h: State, h': State, c: ConnId, text: Text, t: Serial)
    requires c < |h.conns| && (t in h.trusted ==> t < |h.frames|)
    requires h'.frames == h.frames + [Received(c, text)]
    requires h'.trusted == if Trusted(h.conns[c], text) then h.trusted + {|h.frames|} else h.trusted
    ensures var on := t == |h.frames| && ToPassOn(h.conns[c], text);
            && (t in ResponseFrames(h') <==> t in ResponseFrames(h) || (on && text.parsed.value.CommandResponse?))
            && (t in DataFrames(h') <==> t in DataFrames(h) || (on && text.parsed.value.DataPayload?))
  {
  }

  lemma OneMore(a: set<Serial>, b: set<Serial>, s: Serial, more: bool)
    requires s !in a && forall t: Serial :: t in b <==> t in a || (t == s && more)
    ensures |b| == |a| + One(more)
  {
    assert b == a + if more then {s} else {};
  }

  lemma StepTallies(h: State, step: Step)
    requires Tallied(h) && Enabled(h, step)
    ensures Tallied(Apply(h, step))
  {
    if step.Receive? {
      ReceiveRoutes(h, step.c, step.text);
      ReceiveTallies(h, Apply(h, step), step.c, step.text);
    } else {
      StepEffect(h, step);
      StepKeepsTraffic(h, step);
      assert ResponseFrames(Apply(h, step)) == ResponseFrames(h) && DataFrames(Apply(h, step)) == DataFrames(h);
    }
  }

  lemma SettleKeepsTraffic(h: State, c: ConnId)
    requires CanSettle(h, c)
    ensures DoSettle(h, c).stats.responses == h.stats.responses && DoSettle(h, c).stats.data == h.stats.data
  {
  }

  lemma StepKeepsTraffic(h: State, step: Step)
    requires Enabled(h, step) && !step.Receive?
    ensures Apply(h, step).stats.responses == h.stats.responses && Apply(h, step).stats.data == h.stats.data
  {
    match step
    case Lookup(c) => assert DoLookup(h, c).stats == h.stats;
    case PushDest(c, r) => assert DoPush(h, c, r).stats == h.stats;
    case Settle(c) => SettleKeepsTraffic(h, c);
    case _ => QuietStep(h, step);
  }

  lemma {:induction false} RunTallies(h: State, steps: seq<Step>)
    requires Tallied(h) && Legal(h, steps)
    ensures Tallied(Run(h, steps))
    decreases steps
  {
    if steps != [] {
      StepTallies(h, steps[0]);
      RunTallies(Apply(h, steps[0]), steps[1..]);
    }
  }

  /** In every state, the hub has counted every response and every data frame from a registered sender, once. */
  lemma TrafficIsCounted(token: Option<string>, steps: seq<Step>)
    requires Legal(Start(token), steps)
    ensures var h := Run(Start(token), steps);
            h.stats.responses == |ResponseFrames(h)| && h.stats.data == |DataFrames(h)|
  {
    assert ResponseFrames(Start(token)) == {} && DataFrames(Start(token)) == {};
    RunTallies(Start(token), steps);
  }
}
