/** What a waiting call of the client can be told, in every run of client and hub together. */
module ClientProofs {
  import opened Wrappers
  import opened Protocol
  import opened Hub
  import opened HubInv
  import opened HubStable
  import opened HubGrows
  import opened HubEffects
  import opened HubProofs
  import opened HubTheorems
  import opened Client

  // ---- The invariant -----------------------------------------------------------------------

  /** The hub's frames from this connection are exactly the client's, in order. */
  ghost predicate SerialsOk(w: World) {
    && w.k < |w.hub.conns| && |w.serials| <= |w.client.out|
    && (forall i :: 0 <= i < |w.serials| ==>
          && w.serials[i] < |w.hub.frames| && w.hub.frames[w.serials[i]].conn == w.k
          && w.hub.frames[w.serials[i]].text.parsed == Some(w.client.out[i]))
    && (forall s :: 0 <= s < |w.hub.frames| && w.hub.frames[s].conn == w.k ==> s in w.serials)
  }

  /** Every frame carries the client's id; a command's id is used by that command and by answers only. */
  ghost predicate OutOk(cl: Client) {
    && (forall i :: 0 <= i < |cl.out| ==>
          && cl.out[i].from == cl.node
          && (cl.out[i].CommandRequest? ==> cl.out[i].corr in cl.commands)
          && (cl.out[i].corr in cl.commands ==> cl.out[i].CommandRequest? || IsAnswer(cl.out[i])))
    && (forall i, j :: 0 <= i < j < |cl.out| && cl.out[i].CommandRequest? && cl.out[j].CommandRequest? ==>
          cl.out[i].corr != cl.out[j].corr)
    && cl.regCorr !in cl.commands
  }

  /** Only a registered connection is ever spoken to, so the client's answers come from a known sender. */
  ghost predicate AnswersTrusted(w: World) {
    && (w.client.jobs != [] ==> w.k < |w.hub.conns| && Known(w.hub.conns[w.k]))
    && (forall i :: 0 <= i < |w.client.out| && IsAnswer(w.client.out[i]) ==>
          && w.k < |w.hub.conns| && Known(w.hub.conns[w.k])
          && (i < |w.serials| ==> w.serials[i] in w.hub.trusted))
  }

  predicate HubRefusal(e: Envelope) { e.DeliveryNack? && e.from == "hub" }

  /** Frame `s` is the client's command `corr`. */
  predicate CommandFrame(w: World, s: Serial, corr: Corr) {
    && s < |w.hub.frames| && w.hub.frames[s].conn == w.k && IsCommand(w.hub.frames[s].text)
    && w.hub.frames[s].text.parsed.value.corr == corr
  }

  predicate NeverForwarded(h: State, s: Serial) {
    s < |h.frames| && (s !in h.routed || (s in h.verdicts && !Forwarded(h.verdicts[s])))
  }

  /** The command reached the hub, and the hub refused it. */
  ghost predicate Refused(w: World, corr: Corr) {
    && (exists i :: 0 <= i < |w.serials| && i < |w.client.out| && w.client.out[i].CommandRequest? && w.client.out[i].corr == corr)
    && (forall s :: CommandFrame(w, s, corr) ==> NeverForwarded(w.hub, s))
  }

  ghost predicate AnswerOk(w: World, corr: Corr, e: Envelope) {
    && e.corr == corr && !(e.DeliveryAck? && e.forwarded) && corr !in w.client.pending
    && (corr in w.client.commands && HubRefusal(e) ==> Refused(w, corr))
  }

  ghost predicate WaitersOk(w: World) {
    && w.client.pending <= w.client.waiters.Keys && w.client.commands <= w.client.waiters.Keys
    && (forall corr :: corr in w.client.waiters && w.client.waiters[corr].Answered? ==>
          AnswerOk(w, corr, w.client.waiters[corr].envelope))
  }

  ghost predicate ClientOk(w: World) {
    SerialsOk(w) && OutOk(w.client) && AnswersTrusted(w) && WaitersOk(w)
  }

  ghost predicate WInv(w: World) {
    Inv(w.hub) && ClientOk(w)
  }

  // ---- The hub moves -----------------------------------------------------------------------

  /** The hub moves on and receives nothing from this client. */
  lemma HubMoves(w: World, h': State)
    requires WInv(w) && Inv(h') && Grows(w.hub, h')
    requires forall s :: |w.hub.frames| <= s < |h'.frames| ==> h'.frames[s].conn != w.k
    ensures WInv(w.(hub := h'))
  {
    var w' := w.(hub := h');
    assert ConnGrows(w.hub.conns[w.k], h'.conns[w.k]);
    forall corr | corr in w.client.waiters && w.client.waiters[corr].Answered?
      ensures AnswerOk(w', corr, w.client.waiters[corr].envelope)
    {
      var e := w.client.waiters[corr].envelope;
      assert AnswerOk(w, corr, e);
      if corr in w.client.commands && HubRefusal(e) {
        RefusedStable(w, h', corr);
      }
    }
  }

  lemma RefusedStable(w: World, h': State, corr: Corr)
    requires Refused(w, corr) && Grows(w.hub, h')
    requires forall s :: |w.hub.frames| <= s < |h'.frames| ==> h'.frames[s].conn != w.k
    ensures Refused(w.(hub := h'), corr)
  {
    forall s | CommandFrame(w.(hub := h'), s, corr)
      ensures NeverForwarded(h', s)
    {
      assert CommandFrame(w, s, corr);
    }
  }

  lemma MeshInv(w: World, step: Step)
    requires WInv(w) && Enabled(w.hub, step) && !OwnFrame(w, step)
    ensures WInv(w.(hub := Apply(w.hub, step)))
  {
    StepKeepsInv(w.hub, step);
    StepGrows(w.hub, step);
    if step.Receive? {
      DoReceiveRecords(w.hub, step.c, step.text);
    } else {
      StepEffect(w.hub, step);
    }
    HubMoves(w, Apply(w.hub, step));
  }

  // ---- The hub receives a frame of the client ----------------------------------------------

  /** Whatever this connection owns is the client's own id. */
  lemma OwnsOnlyItsNode(w: World, id: NodeId)
    requires Inv(w.hub) && SerialsOk(w) && OutOk(w.client) && id in w.hub.conns[w.k].owned
    ensures id == w.client.node
  {
    assert OwnedOk(w.hub, w.k);
    var s :| Registration(w.hub, w.k, s, id);
    var i :| 0 <= i < |w.serials| && w.serials[i] == s;
  }

  lemma CarryInv(w: World, raw: string)
    requires WInv(w) && |w.serials| < |w.client.out| && AtRest(w.hub, w.k)
    ensures WInv(DoCarry(w, raw))
  {
    var n, s := |w.serials|, |w.hub.frames|;
    var e := w.client.out[n];
    var text := Text(raw, Some(e));
    var h' := DoReceive(w.hub, w.k, text);
    ReceiveInv(w.hub, w.k, text);
    EnactMoves(w.hub, w.k, text, HandleText(w.hub, w.hub.conns[w.k], s, text));
    DoReceiveRecords(w.hub, w.k, text);
    if IsAnswer(e) {
      var id := w.hub.conns[w.k].owned[0];
      OwnsOnlyItsNode(w, id);
      assert Trusted(w.hub.conns[w.k], text);
    }
    CarryKeeps(w, h', text);
  }

  /** The world after frame `n` of the client became frame `s` of the hub. */
  function Carried(w: World, h': State): World {
    w.(hub := h', serials := w.serials + [|w.hub.frames|])
  }

  lemma SerialsCarried(w: World, h': State, text: Text)
    requires SerialsOk(w) && |w.serials| < |w.client.out| && |w.hub.conns| <= |h'.conns|
    requires text.parsed == Some(w.client.out[|w.serials|]) && h'.frames == w.hub.frames + [Received(w.k, text)]
    ensures SerialsOk(Carried(w, h'))
  {
    var n, w' := |w.serials|, Carried(w, h');
    assert forall i :: 0 <= i < n ==> w'.serials[i] == w.serials[i];
    assert w'.serials[n] == |w.hub.frames|;
    forall s | 0 <= s < |h'.frames| && h'.frames[s].conn == w.k
      ensures s in w'.serials
    {
      if s < |w.hub.frames| {
        assert s in w.serials;
      }
    }
  }

  lemma WaitersCarried(w: World, h': State, text: Text)
    requires WaitersOk(w) && OutOk(w.client) && |w.serials| < |w.client.out| && Grows(w.hub, h')
    requires text.parsed == Some(w.client.out[|w.serials|]) && h'.frames == w.hub.frames + [Received(w.k, text)]
    ensures WaitersOk(Carried(w, h'))
  {
    var w' := Carried(w, h');
    forall corr | corr in w.client.waiters && w.client.waiters[corr].Answered?
      ensures AnswerOk(w', corr, w.client.waiters[corr].envelope)
    {
      var e := w.client.waiters[corr].envelope;
      assert AnswerOk(w, corr, e);
      if corr in w.client.commands && HubRefusal(e) {
        RefusedCarried(w, w', corr);
      }
    }
  }

  lemma CarryKeeps(w: World, h': State, text: Text)
    requires WInv(w) && |w.serials| < |w.client.out| && Inv(h') && Grows(w.hub, h')
    requires text.parsed == Some(w.client.out[|w.serials|]) && h'.frames == w.hub.frames + [Received(w.k, text)]
    requires IsAnswer(w.client.out[|w.serials|]) ==> |w.hub.frames| in h'.trusted
    ensures WInv(Carried(w, h'))
  {
    assert ConnGrows(w.hub.conns[w.k], h'.conns[w.k]);
    SerialsCarried(w, h', text);
    WaitersCarried(w, h', text);
  }

  /** The new frame is another command: the refused one had been received before. */
  lemma RefusedCarried(w: World, w': World, corr: Corr)
    requires Refused(w, corr) && OutOk(w.client) && Grows(w.hub, w'.hub) && |w.serials| < |w.client.out|
    requires w' == w.(hub := w'.hub, serials := w.serials + [|w.hub.frames|])
    requires |w'.hub.frames| == |w.hub.frames| + 1
    requires w'.hub.frames[|w.hub.frames|].text.parsed == Some(w.client.out[|w.serials|])
    ensures Refused(w', corr)
  {
    var i :| 0 <= i < |w.serials| && w.client.out[i].CommandRequest? && w.client.out[i].corr == corr;
    forall s | CommandFrame(w', s, corr)
      ensures NeverForwarded(w'.hub, s)
    {
      assert s != |w.hub.frames|;
      assert CommandFrame(w, s, corr);
    }
  }

  // ---- The client sends --------------------------------------------------------------------

  /** Appending a frame keeps what is said about the frames before it. */
  lemma RefusedSent(w: World, w': World, corr: Corr)
    requires Refused(w, corr) && w'.hub == w.hub && w'.k == w.k && w'.serials == w.serials
    requires w.client.out <= w'.client.out
    ensures Refused(w', corr)
  {
    var i :| 0 <= i < |w.serials| && i < |w.client.out| && w.client.out[i].CommandRequest? && w.client.out[i].corr == corr;
    assert w'.client.out[i] == w.client.out[i];
    forall s | CommandFrame(w', s, corr)
      ensures NeverForwarded(w'.hub, s)
    {
      assert CommandFrame(w, s, corr);
    }
  }

  /** Waiters that had their answer keep it while the client goes on. */
  lemma AnswersKept(w: World, w': World)
    requires WaitersOk(w) && w'.hub == w.hub && w'.k == w.k && w'.serials == w.serials
    requires w.client.out <= w'.client.out
    requires forall corr :: corr in w'.client.pending ==> corr in w.client.pending || corr !in w.client.waiters
    requires forall corr :: corr in w'.client.commands && corr in w.client.waiters ==> corr in w.client.commands
    requires forall corr :: corr in w'.client.waiters && w'.client.waiters[corr].Answered? ==>
      corr in w.client.waiters && w.client.waiters[corr] == w'.client.waiters[corr]
    requires w'.client.pending <= w'.client.waiters.Keys && w'.client.commands <= w'.client.waiters.Keys
    ensures WaitersOk(w')
  {
    forall corr | corr in w'.client.waiters && w'.client.waiters[corr].Answered?
      ensures AnswerOk(w', corr, w'.client.waiters[corr].envelope)
    {
      var e := w.client.waiters[corr].envelope;
      assert AnswerOk(w, corr, e);
      if corr in w.client.commands && HubRefusal(e) {
        RefusedSent(w, w', corr);
      }
    }
  }

  /** A frame that is neither a command nor an answer, under an id no command has. */
  lemma SendOk(w: World, e: Envelope)
    requires ClientOk(w) && e.from == w.client.node && e.corr !in w.client.commands
    requires !e.CommandRequest? && !IsAnswer(e)
    ensures ClientOk(w.(client := Send(w.client, e)))
  {
    AnswersKept(w, w.(client := Send(w.client, e)));
  }

  lemma QueryOk(w: World, corr: Corr)
    requires ClientOk(w) && Fresh(w.client, corr)
    ensures ClientOk(w.(client := Ask(w.client, corr, NodeList(corr, w.client.node, "hub"))))
  {
    AnswersKept(w, w.(client := Ask(w.client, corr, NodeList(corr, w.client.node, "hub"))));
  }

  lemma CommandOk(w: World, corr: Corr, target: NodeId, command: string)
    requires ClientOk(w) && Fresh(w.client, corr)
    ensures ClientOk(w.(client := DoSendCommand(w.client, corr, target, command)))
  {
    AnswersKept(w, w.(client := DoSendCommand(w.client, corr, target, command)));
  }

  /** An answer, sent by a client that was spoken to. */
  lemma AnswerSentOk(w: World, w': World, e: Envelope)
    requires ClientOk(w) && IsAnswer(e) && e.from == w.client.node && Known(w.hub.conns[w.k])
    requires w' == w.(client := w.client.(out := w.client.out + [e], jobs := w'.client.jobs, next := w'.client.next))
    ensures ClientOk(w')
  {
    AnswersKept(w, w');
  }

  lemma FinishOk(w: World, i: nat, status: string)
    requires ClientOk(w) && i < |w.client.jobs|
    ensures ClientOk(w.(client := DoFinish(w.client, i, status)))
  {
    var job := w.client.jobs[i];
    AnswerSentOk(w, w.(client := DoFinish(w.client, i, status)), CommandResponse(job.corr, w.client.node, job.from, status));
  }

  lemma GiveUpOk(w: World, corr: Corr)
    requires ClientOk(w) && corr in w.client.waiters && w.client.waiters[corr].Waiting?
    ensures ClientOk(w.(client := w.client.(waiters := w.client.waiters[corr := TimedOut])))
  {
    AnswersKept(w, w.(client := w.client.(waiters := w.client.waiters[corr := TimedOut])));
  }

  // ---- The client reads --------------------------------------------------------------------

  lemma {:induction false} InboxIsLogged(log: seq<Delivery>, k: ConnId, j: nat) returns (i: nat)
    requires j < |Inbox(log, k)|
    ensures i < |log| && log[i].dest == k && log[i].message == Inbox(log, k)[j]
  {
    var last := |log| - 1;
    if log[last].dest == k && j == |Inbox(log, k)| - 1 {
      i := last;
    } else {
      i := InboxIsLogged(log[..last], k, j);
    }
  }

  /** What the hub queues for the client under its own name is about a frame of the client. */
  lemma RefusalIsAboutOwnCommand(w: World, m: Message, e: Envelope)
    requires WInv(w) && DeliveryOk(w.hub, Delivery(w.k, m)) && Read(m) == Some(e)
    requires HubRefusal(e) && e.corr in w.client.commands
    ensures Refused(w, e.corr)
  {
    assert m.HubReply? by { NotRelayed(w, m, e); }
    var s := m.serial;
    var i :| 0 <= i < |w.serials| && w.serials[i] == s;
    assert w.client.out[i].corr == e.corr;
    assert !IsAnswer(w.client.out[i]);
    forall s' | CommandFrame(w, s', e.corr)
      ensures NeverForwarded(w.hub, s')
    {
      var j :| 0 <= j < |w.serials| && w.serials[j] == s';
      assert i == j;
    }
  }

  /** A refusal signed `hub` was not relayed from a peer and did not come from the bridge. */
  lemma NotRelayed(w: World, m: Message, e: Envelope)
    requires Inv(w.hub) && DeliveryOk(w.hub, Delivery(w.k, m)) && Read(m) == Some(e) && HubRefusal(e)
    ensures m.HubReply?
  {
    if m.Relay? {
      var c := w.hub.frames[m.serial].conn;
      assert OwnedOk(w.hub, c) && e.from in w.hub.conns[c].owned;
      assert EqIgnoreAsciiCase(RESERVED_NODE_IDS[0], "hub");
      assert false;
    }
  }

  /** The client is spoken to by a peer only once its connection is registered. */
  lemma SpokenTo(w: World, m: Message, e: Envelope)
    requires DeliveryOk(w.hub, Delivery(w.k, m)) && Read(m) == Some(e) && (e.CommandRequest? || e.DataPayload?)
    ensures Known(w.hub.conns[w.k])
  {
  }

  /** A refusal signed by the hub, read by the client, is the truth about its command. */
  ghost predicate Honest(w: World, e: Envelope) {
    HubRefusal(e) && e.corr in w.client.commands ==> Refused(w, e.corr)
  }

  lemma ResolveOk(w: World, e: Envelope)
    requires ClientOk(w) && Honest(w, e) && !(e.DeliveryAck? && e.forwarded)
    ensures ClientOk(w.(client := Resolve(w.client, e)))
  {
    var w' := w.(client := Resolve(w.client, e));
    forall corr | corr in w'.client.waiters && w'.client.waiters[corr].Answered?
      ensures AnswerOk(w', corr, w'.client.waiters[corr].envelope)
    {
      if w.client.waiters[corr].Answered? {
        assert AnswerOk(w, corr, w.client.waiters[corr].envelope);
      }
      if corr in w.client.commands && HubRefusal(w'.client.waiters[corr].envelope) {
        RefusedSent(w, w', corr);
      }
    }
  }

  lemma ProcessOk(w: World, e: Envelope)
    requires ClientOk(w) && Honest(w, e) && (e.CommandRequest? || e.DataPayload? ==> Known(w.hub.conns[w.k]))
    ensures ClientOk(w.(client := Process(w.client, e)))
  {
    var cl := w.client;
    if !ForMe(cl, e) {
    } else if IsVerdict(cl, e) {
      AnswersKept(w, w.(client := cl.(verdictSeen := true)));
    } else if e.CommandRequest? {
      AnswersKept(w, w.(client := cl.(jobs := cl.jobs + [e])));
    } else if e.DataPayload? {
      var answer := if e.intact then DeliveryAck(e.corr, cl.node, e.from, false)
                    else DeliveryNack(e.corr, cl.node, e.from, PayloadCorrupt);
      var w1 := w.(client := cl.(out := cl.out + [answer]));
      AnswerSentOk(w, w1, answer);
      ResolveOk(w1, e);
    } else if !(e.DeliveryAck? && e.forwarded) {
      ResolveOk(w, e);
    }
  }

  /** What the hub queued for this client, and the client reads next, can be relied on. */
  lemma NextIsHonest(w: World, e: Envelope)
    requires WInv(w) && w.client.next < |Inbox(w.hub.log, w.k)| && Read(Inbox(w.hub.log, w.k)[w.client.next]) == Some(e)
    ensures Honest(w, e) && (e.CommandRequest? || e.DataPayload? ==> Known(w.hub.conns[w.k]))
  {
    var i := InboxIsLogged(w.hub.log, w.k, w.client.next);
    var m := Inbox(w.hub.log, w.k)[w.client.next];
    assert DeliveryOk(w.hub, Delivery(w.k, m)) by {
      assert DeliveryOk(w.hub, w.hub.log[i]);
      assert w.hub.log[i] == Delivery(w.k, m);
    }
    if HubRefusal(e) && e.corr in w.client.commands {
      RefusalIsAboutOwnCommand(w, m, e);
    }
    if e.CommandRequest? || e.DataPayload? {
      SpokenTo(w, m, e);
    }
  }

  lemma ReadOne(w: World, e: Envelope)
    requires ClientOk(w) && Honest(w, e) && (e.CommandRequest? || e.DataPayload? ==> Known(w.hub.conns[w.k]))
    ensures ClientOk(w.(client := Process(w.client.(next := w.client.next + 1), e)))
  {
    var w1 := w.(client := w.client.(next := w.client.next + 1));
    NextRead(w, e);
    ProcessOk(w1, e);
    assert w1.(client := Process(w1.client, e)) == w.(client := Process(w1.client, e));
  }

  lemma DoReadIs(w: World)
    requires w.client.next < |Inbox(w.hub.log, w.k)|
    ensures var cl := w.client.(next := w.client.next + 1);
            match Read(Inbox(w.hub.log, w.k)[w.client.next])
            case None => DoRead(w) == w.(client := cl)
            case Some(e) => DoRead(w) == w.(client := Process(cl, e))
  {
  }

  lemma ReadInv(w: World)
    requires WInv(w) && w.client.next < |Inbox(w.hub.log, w.k)|
    ensures WInv(DoRead(w))
  {
    DoReadIs(w);
    match Read(Inbox(w.hub.log, w.k)[w.client.next])
    case None => AnswersKept(w, w.(client := w.client.(next := w.client.next + 1)));
    case Some(e) => NextIsHonest(w, e); ReadOne(w, e);
  }

  lemma NextRead(w: World, e: Envelope)
    requires ClientOk(w) && Honest(w, e)
    ensures var w1 := w.(client := w.client.(next := w.client.next + 1)); ClientOk(w1) && Honest(w1, e)
  {
    var w1 := w.(client := w.client.(next := w.client.next + 1));
    AnswersKept(w, w1);
    if HubRefusal(e) && e.corr in w.client.commands {
      RefusedSent(w, w1, e.corr);
    }
  }

  // ---- Runs --------------------------------------------------------------------------------

  lemma WStepInv(w: World, s: WStep)
    requires WInv(w) && WEnabled(w, s)
    ensures WInv(WApply(w, s))
  {
    var cl := w.client;
    match s
    case Mesh(step) => MeshInv(w, step);
    case Carry(raw) => CarryInv(w, raw);
    case Register(token) => SendOk(w, NodeRegistration(cl.regCorr, cl.node, "hub", token));
    case SendCommand(corr, target, command) => CommandOk(w, corr, target, command);
    case QueryNodes(corr) => QueryOk(w, corr);
    case SendData(corr, target, intact) => SendOk(w, DataPayload(corr, cl.node, target, intact));
    case SendHeartbeat(corr) => SendOk(w, Heartbeat(corr, cl.node, "hub"));
    case ReadNext => ReadInv(w);
    case Finish(i, status) => FinishOk(w, i, status);
    case GiveUp(corr) => GiveUpOk(w, corr);
  }

  lemma {:induction false} WRunInv(w: World, steps: seq<WStep>)
    requires WInv(w) && WLegal(w, steps)
    ensures WInv(WRun(w, steps))
    decreases steps
  {
    if steps != [] {
      WStepInv(w, steps[0]);
      WRunInv(WApply(w, steps[0]), steps[1..]);
      assert WRun(w, steps) == WRun(WApply(w, steps[0]), steps[1..]);
    }
  }

  lemma NewClientInv(hub: State, node: NodeId, regCorr: Corr)
    requires Inv(hub)
    ensures WInv(NewClient(hub, node, regCorr))
  {
    ConnectInv(hub);
  }

  /** An answer, once given, is never replaced. */
  lemma {:induction false} AnswersStay(w: World, steps: seq<WStep>, corr: Corr)
    requires WInv(w) && WLegal(w, steps) && corr in w.client.waiters && w.client.waiters[corr].Answered?
    ensures var w' := WRun(w, steps); corr in w'.client.waiters && w'.client.waiters[corr] == w.client.waiters[corr]
    decreases steps
  {
    if steps != [] {
      var w1 := WApply(w, steps[0]);
      WStepInv(w, steps[0]);
      AnswerStays(w, steps[0], corr);
      AnswersStay(w1, steps[1..], corr);
      assert WRun(w, steps) == WRun(w1, steps[1..]);
    }
  }

  lemma AnswerStays(w: World, s: WStep, corr: Corr)
    requires WaitersOk(w) && WEnabled(w, s) && corr in w.client.waiters && w.client.waiters[corr].Answered?
    ensures var w' := WApply(w, s); corr in w'.client.waiters && w'.client.waiters[corr] == w.client.waiters[corr]
  {
    assert AnswerOk(w, corr, w.client.waiters[corr].envelope);
  }

  // ---- The theorems ------------------------------------------------------------------------

  /**
   A waiting call is answered at most once, only by an envelope with its own correlation id, and
   never by the intermediate ACK that says a command was forwarded.
   */
  lemma AnsweredOnceByItsOwn(token: Option<string>, pre: seq<Step>, node: NodeId, regCorr: Corr,
                             before: seq<WStep>, after: seq<WStep>, corr: Corr)
    requires Legal(Start(token), pre)
    requires var w0 := NewClient(Run(Start(token), pre), node, regCorr);
      && WLegal(w0, before)
      && WLegal(WRun(w0, before), after)
      && corr in WRun(w0, before).client.waiters && WRun(w0, before).client.waiters[corr].Answered?
    ensures var w := WRun(NewClient(Run(Start(token), pre), node, regCorr), before);
      var e := w.client.waiters[corr].envelope;
      && e.corr == corr && !(e.DeliveryAck? && e.forwarded)
      && corr in WRun(w, after).client.waiters && WRun(w, after).client.waiters[corr] == Answered(e)
  {
    var w0 := NewClient(Run(Start(token), pre), node, regCorr);
    ReachableInv(token, pre);
    NewClientInv(Run(Start(token), pre), node, regCorr);
    WRunInv(w0, before);
    assert AnswerOk(WRun(w0, before), corr, WRun(w0, before).client.waiters[corr].envelope);
    AnswersStay(WRun(w0, before), after, corr);
  }

  /** If the hub's NACK is the answer to a command, that command was never queued anywhere. */
  lemma HubRefusalMeansNotQueued(token: Option<string>, pre: seq<Step>, node: NodeId, regCorr: Corr,
                                 steps: seq<WStep>, corr: Corr, s: Serial)
    requires Legal(Start(token), pre)
    requires var w0 := NewClient(Run(Start(token), pre), node, regCorr);
      && WLegal(w0, steps)
      && var w := WRun(w0, steps);
        && corr in w.client.commands && corr in w.client.waiters && w.client.waiters[corr].Answered?
        && HubRefusal(w.client.waiters[corr].envelope)
        && CommandFrame(w, s, corr)
    ensures var w := WRun(NewClient(Run(Start(token), pre), node, regCorr), steps);
      Copies(w.hub.log, s) == 0 && Responses(w.hub.log, s) == 0
  {
    var w0 := NewClient(Run(Start(token), pre), node, regCorr);
    var w := WRun(w0, steps);
    ReachableInv(token, pre);
    NewClientInv(Run(Start(token), pre), node, regCorr);
    WRunInv(w0, steps);
    if s in w.hub.jobs {
      assert JobOk(w.hub, s);
    }
    assert AnswerOk(w, corr, w.client.waiters[corr].envelope);
    assert NeverForwarded(w.hub, s);
  }

  // ---- Waiting calls get their answers -----------------------------------------------------

  /** A call that waits is in the pending map, and the registration's id belongs to no call. */
  predicate Open(cl: Client) {
    && cl.regCorr !in cl.waiters
    && forall corr :: corr in cl.waiters && cl.waiters[corr].Waiting? ==> corr in cl.pending
  }

  lemma ProcessKeepsOpen(cl: Client, e: Envelope)
    requires Open(cl)
    ensures Open(Process(cl, e))
  {
  }

  lemma StepKeepsOpen(w: World, s: WStep)
    requires Open(w.client) && WEnabled(w, s)
    ensures Open(WApply(w, s).client)
  {
    if s.ReadNext? {
      var cl, read := w.client.(next := w.client.next + 1), Read(Inbox(w.hub.log, w.k)[w.client.next]);
      assert Open(cl);
      if read.Some? {
        ProcessKeepsOpen(cl, read.value);
      }
      DoReadIs(w);
    }
  }

  lemma {:induction false} RunKeepsOpen(w: World, steps: seq<WStep>)
    requires Open(w.client) && WLegal(w, steps)
    ensures Open(WRun(w, steps).client)
    decreases steps
  {
    if steps != [] {
      StepKeepsOpen(w, steps[0]);
      RunKeepsOpen(WApply(w, steps[0]), steps[1..]);
    }
  }

  /** Whatever this connection claims is the client's own id. */
  lemma ClaimsOnlyItsNode(w: World, id: NodeId)
    requires WInv(w) && Claims(w.hub.conns[w.k], id)
    ensures id == w.client.node
  {
    if id in w.hub.conns[w.k].owned {
      OwnsOnlyItsNode(w, id);
    } else {
      assert TaskOk(w.hub, w.k);
      FrameIsFromNode(w, w.hub.conns[w.k].task.serial);
    }
  }

  lemma FrameIsFromNode(w: World, s: Serial)
    requires SerialsOk(w) && OutOk(w.client) && s < |w.hub.frames| && w.hub.frames[s].conn == w.k
    ensures w.hub.frames[s].text.parsed.Some? && w.hub.frames[s].text.parsed.value.from == w.client.node
  {
    var i :| 0 <= i < |w.serials| && w.serials[i] == s;
    assert w.client.out[i].from == w.client.node;
  }

  /** The reply repeats the id the peer claimed, possibly shortened. */
  predicate Echoes(m: Message) {
    m.HubReply? && m.reply.echo
  }

  lemma ReplyIsForMe(w: World, s: Serial, r: Reply)
    requires WInv(w) && DeliveryOk(w.hub, Delivery(w.k, HubReply(s, r)))
    ensures r.to == w.client.node
  {
    if r.to in w.hub.conns[w.k].owned {
      OwnsOnlyItsNode(w, r.to);
    } else {
      FrameIsFromNode(w, s);
    }
  }

  lemma ResponseIsForMe(w: World, s: Serial, e: Envelope)
    requires WInv(w) && DeliveryOk(w.hub, Delivery(w.k, GridReply(s, e)))
    ensures e.to == w.client.node
  {
    if w.hub.frames[s].conn == w.k {
      FrameIsFromNode(w, s);
    } else {
      ClaimsOnlyItsNode(w, e.to);
    }
  }

  /** What the hub queues for this connection is addressed to the client. */
  lemma QueuedIsForMe(w: World, m: Message, e: Envelope)
    requires WInv(w) && DeliveryOk(w.hub, Delivery(w.k, m)) && Read(m) == Some(e) && !e.Broadcast?
    ensures e.to == if Echoes(m) then EchoId(w.client.node) else w.client.node
  {
    match m
    case Relay(s, text) => ClaimsOnlyItsNode(w, e.to);
    case HubReply(s, r) => ReplyIsForMe(w, s, r);
    case GridReply(s, _) => ResponseIsForMe(w, s, e);
  }

  lemma NodeStep(w: World, s: WStep)
    requires WEnabled(w, s)
    ensures WApply(w, s).client.node == w.client.node
  {
  }

  lemma {:induction false} NodeStays(w: World, steps: seq<WStep>)
    requires WLegal(w, steps)
    ensures WRun(w, steps).client.node == w.client.node
    decreases steps
  {
    if steps != [] {
      NodeStep(w, steps[0]);
      NodeStays(WApply(w, steps[0]), steps[1..]);
    }
  }

  /** The envelopes that end a call; the forwarded ACK does not. */
  predicate Final(e: Envelope) {
    || e.CommandResponse? || e.DeliveryNack? || e.NodeListResponse? || e.NodeRegistrationAck? || e.DataPayload?
    || (e.DeliveryAck? && !e.forwarded)
  }

  lemma ReadResolves(w: World, e: Envelope)
    requires Open(w.client) && w.client.next < |Inbox(w.hub.log, w.k)|
    requires Read(Inbox(w.hub.log, w.k)[w.client.next]) == Some(e) && Final(e) && ForMe(w.client, e)
    requires e.corr in w.client.waiters && w.client.waiters[e.corr].Waiting?
    ensures DoRead(w).client.waiters == w.client.waiters[e.corr := Answered(e)]
  {
  }

  /**
   In every run of client and hub: when the client reads an envelope that ends a call which waits,
   that call, and no other, is resolved by it there and then and for good. All that is queued for the
   client's connection is addressed to it, unless its id is so long or odd that the hub shortens it.
   */
  lemma AnswerIsHandedOver(token: Option<string>, pre: seq<Step>, node: NodeId, regCorr: Corr,
                           before: seq<WStep>, after: seq<WStep>, e: Envelope)
    requires Legal(Start(token), pre)
    requires var w0 := NewClient(Run(Start(token), pre), node, regCorr);
      && WLegal(w0, before)
      && var w := WRun(w0, before);
        && WEnabled(w, ReadNext) && WLegal(WApply(w, ReadNext), after)
        && Read(Inbox(w.hub.log, w.k)[w.client.next]) == Some(e) && Final(e)
        && e.corr in w.client.waiters && w.client.waiters[e.corr].Waiting?
    ensures var w := WRun(NewClient(Run(Start(token), pre), node, regCorr), before);
      var m, w1 := Inbox(w.hub.log, w.k)[w.client.next], WApply(w, ReadNext);
      && (!Echoes(m) || EchoId(node) == node ==> ForMe(w.client, e))
      && (ForMe(w.client, e) ==>
            && w1.client.waiters == w.client.waiters[e.corr := Answered(e)]
            && var w2 := WRun(w1, after); e.corr in w2.client.waiters && w2.client.waiters[e.corr] == Answered(e))
  {
    var w0 := NewClient(Run(Start(token), pre), node, regCorr);
    var w := WRun(w0, before);
    ReachableInv(token, pre);
    NewClientInv(Run(Start(token), pre), node, regCorr);
    WRunInv(w0, before);
    RunKeepsOpen(w0, before);
    var m := Inbox(w.hub.log, w.k)[w.client.next];
    var i := InboxIsLogged(w.hub.log, w.k, w.client.next);
    assert DeliveryOk(w.hub, w.hub.log[i]);
    QueuedIsForMe(w, m, e);
    NodeStays(w0, before);
    if ForMe(w.client, e) {
      ReadResolves(w, e);
      WStepInv(w, ReadNext);
      AnswersStay(WApply(w, ReadNext), after, e.corr);
    }
  }
}
