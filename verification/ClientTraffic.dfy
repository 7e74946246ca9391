/** What the client sends, to whom, and where the answers to its calls come from, in every run. */
module ClientTraffic {
  import opened Wrappers
  import opened Protocol
  import opened Hub
  import opened HubInv
  import opened HubTheorems
  import opened HubSpec
  import opened Client
  import opened ClientProofs

  // ---- What is sent ------------------------------------------------------------------------

  /** An envelope the client does not pass over. */
  predicate Heard(node: NodeId, e: Envelope) {
    e.to == node || e.to == "all" || e.to == "hub"
  }

  /** The answer a data payload gets. */
  function Receipt(node: NodeId, e: Envelope): Envelope
    requires e.DataPayload?
  {
    if e.intact then DeliveryAck(e.corr, node, e.from, false) else DeliveryNack(e.corr, node, e.from, PayloadCorrupt)
  }

  /** What reading a message makes the client send at once. */
  function ReceiptFor(node: NodeId, m: Message): seq<Envelope> {
    match Read(m)
    case Some(e) => if e.DataPayload? && Heard(node, e) then [Receipt(node, e)] else []
    case None => []
  }

  /** What the client has to send when it takes a step. */
  ghost function Owed(w: World, s: WStep): seq<Envelope>
    requires WEnabled(w, s)
  {
    var me := w.client.node;
    match s
    case Register(token) => [NodeRegistration(w.client.regCorr, me, "hub", token)]
    case SendCommand(corr, target, command) => [CommandRequest(corr, me, target, command, true)]
    case QueryNodes(corr) => [NodeList(corr, me, "hub")]
    case SendData(corr, target, intact) => [DataPayload(corr, me, target, intact)]
    case SendHeartbeat(corr) => [Heartbeat(corr, me, "hub")]
    case Finish(i, status) => [CommandResponse(w.client.jobs[i].corr, me, w.client.jobs[i].from, status)]
    case ReadNext => ReceiptFor(me, Inbox(w.hub.log, w.k)[w.client.next])
    case _ => []
  }

  lemma ProcessSends(cl: Client, e: Envelope)
    ensures var cl' := Process(cl, e);
            && cl'.out == cl.out + (if e.DataPayload? && Heard(cl.node, e) then [Receipt(cl.node, e)] else [])
            && cl'.jobs == cl.jobs + (if e.CommandRequest? && Heard(cl.node, e) then [e] else [])
            && cl'.node == cl.node && cl'.next == cl.next
  {
  }

  /** Every step sends what it owes, and nothing else. */
  lemma SendsWhatItOwes(w: World, s: WStep)
    requires WEnabled(w, s)
    ensures WApply(w, s).client.out == w.client.out + Owed(w, s)
  {
    if s.ReadNext? {
      var cl, read := w.client.(next := w.client.next + 1), Read(Inbox(w.hub.log, w.k)[w.client.next]);
      if read.Some? {
        ProcessSends(cl, read.value);
      }
    }
  }

  ghost function OwedBy(w: World, steps: seq<WStep>): seq<Envelope>
    requires WLegal(w, steps)
    decreases steps
  {
    if steps == [] then [] else Owed(w, steps[0]) + OwedBy(WApply(w, steps[0]), steps[1..])
  }

  lemma {:induction false} RunSendsWhatItOwes(w: World, steps: seq<WStep>)
    requires WLegal(w, steps)
    ensures WRun(w, steps).client.out == w.client.out + OwedBy(w, steps)
    decreases steps
  {
    if steps != [] {
      SendsWhatItOwes(w, steps[0]);
      var w1 := WApply(w, steps[0]);
      RunSendsWhatItOwes(w1, steps[1..]);
      assert WRun(w, steps) == WRun(w1, steps[1..]);
      OneAfterAnother(w.client.out, Owed(w, steps[0]), OwedBy(w1, steps[1..]));
    }
  }

  lemma OneAfterAnother(a: seq<Envelope>, b: seq<Envelope>, c: seq<Envelope>)
    ensures (a + b) + c == a + (b + c)
  {
  }

  // ---- A command and its target ------------------------------------------------------------

  /** The frame of the client that carries the command `corr`, wherever it is queued, is `e` and lies where it belongs. */
  ghost predicate Arrives(w: World, corr: Corr, e: Envelope) {
    forall i :: 0 <= i < |w.hub.log| && w.hub.log[i].message.Relay? && CommandFrame(w, w.hub.log[i].message.serial, corr) ==>
      && w.hub.log[i].message.text.parsed == Some(e)
      && w.hub.log[i].dest < |w.hub.conns| && Claims(w.hub.conns[w.hub.log[i].dest], e.to)
  }

  lemma FrameOfCommand(w: World, j: nat, s: Serial)
    requires WInv(w) && j < |w.client.out| && w.client.out[j].CommandRequest? && CommandFrame(w, s, w.client.out[j].corr)
    ensures w.hub.frames[s].text.parsed == Some(w.client.out[j])
  {
    var i :| 0 <= i < |w.serials| && w.serials[i] == s;
    assert w.client.out[i].CommandRequest? && w.client.out[i].corr == w.client.out[j].corr;
  }

  lemma CommandArrives(w: World, j: nat)
    requires WInv(w) && j < |w.client.out| && w.client.out[j].CommandRequest?
    ensures Arrives(w, w.client.out[j].corr, w.client.out[j])
  {
    var e := w.client.out[j];
    forall i | 0 <= i < |w.hub.log| && w.hub.log[i].message.Relay? && CommandFrame(w, w.hub.log[i].message.serial, e.corr)
      ensures w.hub.log[i].message.text.parsed == Some(e)
      ensures w.hub.log[i].dest < |w.hub.conns| && Claims(w.hub.conns[w.hub.log[i].dest], e.to)
    {
      assert DeliveryOk(w.hub, w.hub.log[i]);
      FrameOfCommand(w, j, w.hub.log[i].message.serial);
    }
  }

  lemma ReachedWorld(token: Option<string>, pre: seq<Step>, node: NodeId, regCorr: Corr, steps: seq<WStep>)
    requires Legal(Start(token), pre) && WLegal(NewClient(Run(Start(token), pre), node, regCorr), steps)
    ensures var w := WRun(NewClient(Run(Start(token), pre), node, regCorr), steps); WInv(w) && w.client.node == node
  {
    var w0 := NewClient(Run(Start(token), pre), node, regCorr);
    ReachableInv(token, pre);
    NewClientInv(Run(Start(token), pre), node, regCorr);
    WRunInv(w0, steps);
    NodeStays(w0, steps);
  }

  /**
   In every run: `send_command` sends exactly the command it was given, to the node it was given, and
   asks for an ACK. No other command of the client has its correlation id. Wherever a queue holds it,
   unmodified, that queue belongs to a connection that has registered the target.
   */
  lemma CommandGoesToTarget(token: Option<string>, pre: seq<Step>, node: NodeId, regCorr: Corr,
                            before: seq<WStep>, corr: Corr, target: NodeId, command: string, after: seq<WStep>)
    requires Legal(Start(token), pre)
    requires var w0 := NewClient(Run(Start(token), pre), node, regCorr);
      && WLegal(w0, before)
      && var w := WRun(w0, before);
        WEnabled(w, SendCommand(corr, target, command)) && WLegal(WApply(w, SendCommand(corr, target, command)), after)
    ensures var w := WRun(NewClient(Run(Start(token), pre), node, regCorr), before);
      var w', j := WRun(WApply(w, SendCommand(corr, target, command)), after), |w.client.out|;
      var e := CommandRequest(corr, node, target, command, true);
      && j < |w'.client.out| && w'.client.out[j] == e
      && (forall i :: 0 <= i < |w'.client.out| && w'.client.out[i].CommandRequest? && w'.client.out[i].corr == corr ==> i == j)
      && Arrives(w', corr, e)
  {
    var w := WRun(NewClient(Run(Start(token), pre), node, regCorr), before);
    var s := SendCommand(corr, target, command);
    ReachedWorld(token, pre, node, regCorr, before);
    SendsWhatItOwes(w, s);
    WStepInv(w, s);
    var w1 := WApply(w, s);
    WRunInv(w1, after);
    RunSendsWhatItOwes(w1, after);
    var w', j := WRun(w1, after), |w.client.out|;
    assert w'.client.out[j] == w1.client.out[j];
    CommandArrives(w', j);
  }

  lemma RefusedWentNowhere(w: World, j: nat)
    requires WInv(w) && j < |w.client.out| && w.client.out[j].CommandRequest?
    requires var corr := w.client.out[j].corr;
      corr in w.client.waiters && w.client.waiters[corr].Answered? && HubRefusal(w.client.waiters[corr].envelope)
    ensures var e := w.client.out[j];
      && (exists s: Serial :: CommandFrame(w, s, e.corr))
      && (forall s: Serial :: CommandFrame(w, s, e.corr) ==>
            w.hub.frames[s].text.parsed == Some(e) && Copies(w.hub.log, s) == 0 && Responses(w.hub.log, s) == 0)
  {
    var e := w.client.out[j];
    assert AnswerOk(w, e.corr, w.client.waiters[e.corr].envelope);
    var i :| 0 <= i < |w.serials| && w.client.out[i].CommandRequest? && w.client.out[i].corr == e.corr;
    assert CommandFrame(w, w.serials[i], e.corr);
    forall s: Serial | CommandFrame(w, s, e.corr)
      ensures w.hub.frames[s].text.parsed == Some(e) && Copies(w.hub.log, s) == 0 && Responses(w.hub.log, s) == 0
    {
      FrameOfCommand(w, j, s);
      assert NeverForwarded(w.hub, s);
      assert s in w.hub.jobs ==> JobOk(w.hub, s);
    }
  }

  /**
   In every run: if the answer to `send_command` is a NACK of the hub, the hub received exactly that
   command, no queue ever got it, and no response of the bridge to it exists.
   */
  lemma RefusedCommandWentNowhere(token: Option<string>, pre: seq<Step>, node: NodeId, regCorr: Corr,
                                  before: seq<WStep>, corr: Corr, target: NodeId, command: string, after: seq<WStep>)
    requires Legal(Start(token), pre)
    requires var w0 := NewClient(Run(Start(token), pre), node, regCorr);
      && WLegal(w0, before)
      && var w := WRun(w0, before);
        && WEnabled(w, SendCommand(corr, target, command)) && WLegal(WApply(w, SendCommand(corr, target, command)), after)
        && var cl := WRun(WApply(w, SendCommand(corr, target, command)), after).client;
           corr in cl.waiters && cl.waiters[corr].Answered? && HubRefusal(cl.waiters[corr].envelope)
    ensures var w := WRun(NewClient(Run(Start(token), pre), node, regCorr), before);
      var w', e := WRun(WApply(w, SendCommand(corr, target, command)), after), CommandRequest(corr, node, target, command, true);
      && (exists s: Serial :: CommandFrame(w', s, corr))
      && (forall s: Serial :: CommandFrame(w', s, corr) ==>
            w'.hub.frames[s].text.parsed == Some(e) && Copies(w'.hub.log, s) == 0 && Responses(w'.hub.log, s) == 0)
  {
    var w := WRun(NewClient(Run(Start(token), pre), node, regCorr), before);
    var s := SendCommand(corr, target, command);
    CommandGoesToTarget(token, pre, node, regCorr, before, corr, target, command, after);
    ReachedWorld(token, pre, node, regCorr, before);
    WStepInv(w, s);
    WRunInv(WApply(w, s), after);
    RefusedWentNowhere(WRun(WApply(w, s), after), |w.client.out|);
  }

  // ---- Books -------------------------------------------------------------------------------

  /** The commands among the messages read: each with the id and the node it is to be answered to. */
  ghost function Asked(node: NodeId, read: seq<Message>): multiset<(Corr, NodeId)> {
    if read == [] then multiset{}
    else
      Asked(node, read[..|read| - 1]) +
      match Read(read[|read| - 1])
      case Some(e) => if e.CommandRequest? && Heard(node, e) then multiset{(e.corr, e.from)} else multiset{}
      case None => multiset{}
  }

  ghost function InWork(jobs: seq<Envelope>): multiset<(Corr, NodeId)> {
    if jobs == [] then multiset{}
    else InWork(jobs[..|jobs| - 1]) + multiset{(jobs[|jobs| - 1].corr, jobs[|jobs| - 1].from)}
  }

  ghost function Responded(out: seq<Envelope>): multiset<(Corr, NodeId)> {
    if out == [] then multiset{}
    else
      var e := out[|out| - 1];
      Responded(out[..|out| - 1]) + if e.CommandResponse? then multiset{(e.corr, e.to)} else multiset{}
  }

  /** The receipts owed for the data payloads read, in order, and those sent. */
  function Receipts(node: NodeId, read: seq<Message>): seq<Envelope> {
    if read == [] then [] else Receipts(node, read[..|read| - 1]) + ReceiptFor(node, read[|read| - 1])
  }

  function ReceiptsIn(out: seq<Envelope>): seq<Envelope> {
    if out == [] then []
    else
      var e := out[|out| - 1];
      ReceiptsIn(out[..|out| - 1]) + if e.DeliveryAck? || e.DeliveryNack? then [e] else []
  }

  /** What the client has read, of all that was queued for it. */
  function ReadSoFar(w: World): seq<Message>
    requires w.client.next <= |Inbox(w.hub.log, w.k)|
  {
    Inbox(w.hub.log, w.k)[..w.client.next]
  }

  ghost predicate Balanced(cl: Client, read: seq<Message>) {
    && Responded(cl.out) + InWork(cl.jobs) == Asked(cl.node, read)
    && ReceiptsIn(cl.out) == Receipts(cl.node, read)
    && (forall corr :: corr in cl.waiters && cl.waiters[corr].Answered? ==>
          WasRead(read, cl.waiters[corr].envelope) && EndsCall(cl.node, cl.waiters[corr].envelope))
  }

  /** An envelope that ends a call and is meant for the client. */
  predicate EndsCall(node: NodeId, e: Envelope) {
    Final(e) && Heard(node, e)
  }

  ghost predicate WasRead(read: seq<Message>, e: Envelope) {
    exists j :: 0 <= j < |read| && Read(read[j]) == Some(e)
  }

  ghost predicate Books(w: World) {
    w.client.next <= |Inbox(w.hub.log, w.k)| && Balanced(w.client, ReadSoFar(w))
  }

  lemma {:induction false} InWorkConcat(a: seq<Envelope>, b: seq<Envelope>)
    ensures InWork(a + b) == InWork(a) + InWork(b)
  {
    if b == [] {
      assert a + b == a;
    } else {
      var front, last := b[..|b| - 1], b[|b| - 1];
      InWorkConcat(a, front);
      assert (a + b)[..|a + b| - 1] == a + front && (a + b)[|a + b| - 1] == last;
      Regroup(InWork(a), InWork(front), multiset{(last.corr, last.from)});
    }
  }

  lemma Regroup(a: multiset<(Corr, NodeId)>, b: multiset<(Corr, NodeId)>, c: multiset<(Corr, NodeId)>)
    ensures a + (b + c) == (a + b) + c
    ensures (a + c) + b == a + (b + c)
  {
  }

  lemma Shuffle(a: multiset<(Corr, NodeId)>, x: multiset<(Corr, NodeId)>, b: multiset<(Corr, NodeId)>)
    ensures a + (x + b) == (a + b) + x
  {
  }

  lemma InWorkOne(e: Envelope)
    ensures InWork([e]) == multiset{(e.corr, e.from)}
  {
    assert [e][..0] == [];
  }

  lemma InWorkBetween(a: seq<Envelope>, e: Envelope, b: seq<Envelope>)
    ensures InWork(a + ([e] + b)) == InWork(a + b) + multiset{(e.corr, e.from)}
  {
    InWorkConcat(a, [e] + b);
    InWorkConcat([e], b);
    InWorkOne(e);
    InWorkConcat(a, b);
    Shuffle(InWork(a), multiset{(e.corr, e.from)}, InWork(b));
  }

  lemma CutAt(jobs: seq<Envelope>, i: nat)
    requires i < |jobs|
    ensures jobs[..i] + ([jobs[i]] + jobs[i + 1..]) == jobs
  {
  }

  lemma InWorkWithout(jobs: seq<Envelope>, i: nat)
    requires i < |jobs|
    ensures InWork(jobs) == InWork(jobs[..i] + jobs[i + 1..]) + multiset{(jobs[i].corr, jobs[i].from)}
  {
    CutAt(jobs, i);
    InWorkBetween(jobs[..i], jobs[i], jobs[i + 1..]);
  }

  lemma SentOne(out: seq<Envelope>, e: Envelope)
    ensures Responded(out + [e]) == Responded(out) + if e.CommandResponse? then multiset{(e.corr, e.to)} else multiset{}
    ensures ReceiptsIn(out + [e]) == ReceiptsIn(out) + if e.DeliveryAck? || e.DeliveryNack? then [e] else []
  {
    assert (out + [e])[..|out|] == out;
  }

  ghost predicate NoNewAnswers(cl: Client, cl': Client) {
    forall corr :: corr in cl'.waiters && cl'.waiters[corr].Answered? ==>
      corr in cl.waiters && cl.waiters[corr] == cl'.waiters[corr]
  }

  /** Sending something that is neither a response nor a receipt. */
  lemma BalancedSend(cl: Client, cl': Client, read: seq<Message>, e: Envelope)
    requires Balanced(cl, read) && !e.CommandResponse? && !e.DeliveryAck? && !e.DeliveryNack?
    requires cl'.out == cl.out + [e] && cl'.jobs == cl.jobs && cl'.node == cl.node
    requires NoNewAnswers(cl, cl')
    ensures Balanced(cl', read)
  {
    SentOne(cl.out, e);
  }

  lemma BalancedFinish(cl: Client, read: seq<Message>, i: nat, status: string)
    requires Balanced(cl, read) && i < |cl.jobs|
    ensures Balanced(DoFinish(cl, i, status), read)
  {
    var cl' := DoFinish(cl, i, status);
    var e := cl'.out[|cl.out|];
    SentOne(cl.out, e);
    InWorkWithout(cl.jobs, i);
    Regroup(Responded(cl.out), InWork(cl'.jobs), multiset{(e.corr, e.to)});
  }

  /** One more message read. */
  lemma ReadMore(node: NodeId, read: seq<Message>, m: Message)
    ensures Receipts(node, read + [m]) == Receipts(node, read) + ReceiptFor(node, m)
    ensures Asked(node, read + [m]) == Asked(node, read) +
              match Read(m)
              case Some(e) => if e.CommandRequest? && Heard(node, e) then multiset{(e.corr, e.from)} else multiset{}
              case None => multiset{}
  {
    assert (read + [m])[..|read|] == read;
  }

  lemma StillRead(read: seq<Message>, m: Message, e: Envelope)
    ensures WasRead(read, e) ==> WasRead(read + [m], e)
    ensures Read(m) == Some(e) ==> WasRead(read + [m], e)
  {
    if WasRead(read, e) {
      var j :| 0 <= j < |read| && Read(read[j]) == Some(e);
      assert (read + [m])[j] == read[j];
    }
    assert (read + [m])[|read|] == m;
  }

  lemma ProcessAnswers(cl: Client, e: Envelope, corr: Corr)
    ensures var cl' := Process(cl, e);
            corr in cl'.waiters && cl'.waiters[corr].Answered? ==>
            || (corr in cl.waiters && cl.waiters[corr] == cl'.waiters[corr])
            || (cl'.waiters[corr].envelope == e && EndsCall(cl.node, e))
  {
  }

  lemma AnswersRead(cl: Client, read: seq<Message>, m: Message, e: Envelope)
    requires Balanced(cl, read) && Read(m) == Some(e)
    ensures var cl' := Process(cl, e);
            forall corr :: corr in cl'.waiters && cl'.waiters[corr].Answered? ==>
              WasRead(read + [m], cl'.waiters[corr].envelope) && EndsCall(cl.node, cl'.waiters[corr].envelope)
  {
    var cl' := Process(cl, e);
    forall corr | corr in cl'.waiters && cl'.waiters[corr].Answered?
      ensures WasRead(read + [m], cl'.waiters[corr].envelope) && EndsCall(cl.node, cl'.waiters[corr].envelope)
    {
      ProcessAnswers(cl, e, corr);
      StillRead(read, m, cl'.waiters[corr].envelope);
    }
  }

  lemma SentMaybe(out: seq<Envelope>, more: seq<Envelope>)
    requires |more| <= 1 && forall e :: e in more ==> e.DeliveryAck? || e.DeliveryNack?
    ensures Responded(out + more) == Responded(out) && ReceiptsIn(out + more) == ReceiptsIn(out) + more
  {
    if more == [] {
      assert out + more == out;
    } else {
      assert more == [more[0]] && more[0] in more;
      SentOne(out, more[0]);
    }
  }

  lemma BalancedProcess(cl: Client, read: seq<Message>, m: Message, e: Envelope)
    requires Balanced(cl, read) && Read(m) == Some(e)
    ensures Balanced(Process(cl, e), read + [m])
  {
    var cl' := Process(cl, e);
    ProcessSends(cl, e);
    ReadMore(cl.node, read, m);
    AnswersRead(cl, read, m, e);
    SentMaybe(cl.out, ReceiptFor(cl.node, m));
    var more := if e.CommandRequest? && Heard(cl.node, e) then [e] else [];
    InWorkConcat(cl.jobs, more);
    InWorkOne(e);
    Regroup(Responded(cl.out), InWork(cl.jobs), InWork(more));
  }

  lemma BalancedSkip(cl: Client, read: seq<Message>, m: Message)
    requires Balanced(cl, read) && Read(m).None?
    ensures Balanced(cl, read + [m])
  {
    ReadMore(cl.node, read, m);
    forall corr | corr in cl.waiters && cl.waiters[corr].Answered?
      ensures WasRead(read + [m], cl.waiters[corr].envelope)
    {
      StillRead(read, m, cl.waiters[corr].envelope);
    }
  }

  lemma {:induction false} InboxPrefix(a: seq<Delivery>, b: seq<Delivery>, k: ConnId)
    requires a <= b
    ensures Inbox(a, k) <= Inbox(b, k)
    decreases |b|
  {
    if |a| < |b| {
      InboxPrefix(a, b[..|b| - 1], k);
    } else {
      assert a == b;
    }
  }

  lemma BooksMove(w: World, w': World)
    requires Books(w) && w'.client == w.client && w'.k == w.k && w.hub.log <= w'.hub.log
    ensures Books(w')
  {
    InboxPrefix(w.hub.log, w'.hub.log, w.k);
    assert ReadSoFar(w') == ReadSoFar(w);
  }

  lemma BooksRead(w: World)
    requires Books(w) && w.client.next < |Inbox(w.hub.log, w.k)|
    ensures Books(DoRead(w))
  {
    var inbox, n := Inbox(w.hub.log, w.k), w.client.next;
    var cl, m := w.client.(next := n + 1), inbox[n];
    assert inbox[..n + 1] == inbox[..n] + [m];
    assert Balanced(cl, inbox[..n]);
    if Read(m).Some? {
      BalancedProcess(cl, inbox[..n], m, Read(m).value);
      ProcessSends(cl, Read(m).value);
    } else {
      BalancedSkip(cl, inbox[..n], m);
    }
  }

  lemma StepLog(w: World, s: WStep)
    requires WInv(w) && WEnabled(w, s) && (s.Mesh? || s.Carry?)
    ensures var w' := WApply(w, s); w'.client == w.client && w'.k == w.k && w.hub.log <= w'.hub.log
  {
    match s
    case Mesh(step) => StepGrows(w.hub, step);
    case Carry(raw) =>
      var step := Receive(w.k, Text(raw, Some(w.client.out[|w.serials|])));
      assert Apply(w.hub, step) == DoCarry(w, raw).hub;
      StepGrows(w.hub, step);
  }

  lemma BooksStep(w: World, s: WStep)
    requires WInv(w) && Books(w) && WEnabled(w, s)
    ensures Books(WApply(w, s))
  {
    if s.Mesh? || s.Carry? {
      StepLog(w, s);
      BooksMove(w, WApply(w, s));
    } else if s.ReadNext? {
      BooksRead(w);
    } else if s.Finish? {
      BalancedFinish(w.client, ReadSoFar(w), s.i, s.status);
    } else if !s.GiveUp? {
      BooksSend(w, s);
    }
  }

  /** The client calls or tells someone, of its own accord. */
  predicate Speaks(s: WStep) {
    s.Register? || s.SendCommand? || s.QueryNodes? || s.SendData? || s.SendHeartbeat?
  }

  lemma SpeakingSends(w: World, s: WStep)
    requires WEnabled(w, s) && Speaks(s)
    ensures var w', owed := WApply(w, s), Owed(w, s);
            && w'.hub == w.hub && w'.k == w.k && w'.client.next == w.client.next && w'.client.jobs == w.client.jobs
            && w'.client.node == w.client.node && NoNewAnswers(w.client, w'.client)
            && |owed| == 1 && !owed[0].CommandResponse? && !owed[0].DeliveryAck? && !owed[0].DeliveryNack?
            && w'.client.out == w.client.out + [owed[0]]
  {
  }

  lemma BooksSent(w: World, w': World, e: Envelope)
    requires Books(w) && !e.CommandResponse? && !e.DeliveryAck? && !e.DeliveryNack?
    requires w'.hub == w.hub && w'.k == w.k && w'.client.next == w.client.next && w'.client.jobs == w.client.jobs
    requires w'.client.node == w.client.node && NoNewAnswers(w.client, w'.client) && w'.client.out == w.client.out + [e]
    ensures Books(w')
  {
    BalancedSend(w.client, w'.client, ReadSoFar(w), e);
  }

  lemma BooksSend(w: World, s: WStep)
    requires Books(w) && WEnabled(w, s) && Speaks(s)
    ensures Books(WApply(w, s))
  {
    SpeakingSends(w, s);
    BooksSent(w, WApply(w, s), Owed(w, s)[0]);
  }

  lemma {:induction false} BooksRun(w: World, steps: seq<WStep>)
    requires WInv(w) && Books(w) && WLegal(w, steps)
    ensures Books(WRun(w, steps))
    decreases steps
  {
    if steps != [] {
      BooksStep(w, steps[0]);
      WStepInv(w, steps[0]);
      BooksRun(WApply(w, steps[0]), steps[1..]);
      assert WRun(w, steps) == WRun(WApply(w, steps[0]), steps[1..]);
    }
  }

  /** Nothing is ever queued for a connection that does not exist yet. */
  lemma {:induction false} NothingForNew(log: seq<Delivery>, k: ConnId)
    requires forall i :: 0 <= i < |log| ==> log[i].dest < k
    ensures Inbox(log, k) == []
  {
    if log != [] {
      NothingForNew(log[..|log| - 1], k);
    }
  }

  lemma ReachedBooks(token: Option<string>, pre: seq<Step>, node: NodeId, regCorr: Corr, steps: seq<WStep>)
    requires Legal(Start(token), pre) && WLegal(NewClient(Run(Start(token), pre), node, regCorr), steps)
    ensures var w := WRun(NewClient(Run(Start(token), pre), node, regCorr), steps); Books(w)
  {
    var hub := Run(Start(token), pre);
    var w0 := NewClient(hub, node, regCorr);
    ReachableInv(token, pre);
    NewClientInv(hub, node, regCorr);
    forall i | 0 <= i < |hub.log| ensures hub.log[i].dest < |hub.conns| {
      assert DeliveryOk(hub, hub.log[i]);
    }
    NothingForNew(hub.log, |hub.conns|);
    assert Balanced(w0.client, []);
    BooksRun(w0, steps);
  }

  /**
   In every run: each command the client has read is being executed or has been answered, once, with
   its own correlation id and to the node that sent it, and nothing else is; and each data payload
   read got its receipt, in order: an ACK if it was intact, a NACK if not, to the node that sent it.
   */
  lemma RequestsAreAnsweredOnce(token: Option<string>, pre: seq<Step>, node: NodeId, regCorr: Corr, steps: seq<WStep>)
    requires Legal(Start(token), pre) && WLegal(NewClient(Run(Start(token), pre), node, regCorr), steps)
    ensures var w := WRun(NewClient(Run(Start(token), pre), node, regCorr), steps);
      && w.client.next <= |Inbox(w.hub.log, w.k)|
      && Responded(w.client.out) + InWork(w.client.jobs) == Asked(node, ReadSoFar(w))
      && ReceiptsIn(w.client.out) == Receipts(node, ReadSoFar(w))
  {
    ReachedWorld(token, pre, node, regCorr, steps);
    ReachedBooks(token, pre, node, regCorr, steps);
  }

  // ---- Who answered ------------------------------------------------------------------------

  /**
   Where an answer can have come from: from the hub, about a frame of the client with the same
   correlation id; from the bridge, about a command with the same correlation id of a node whose id
   the client holds; or from a peer, which was registered under the name it gives when it sent it.
   */
  ghost predicate Genuine(w: World, m: Message, e: Envelope) {
    match m
    case HubReply(s, _) => e.from == "hub" && s < |w.hub.frames| && w.hub.frames[s].conn == w.k && SameCorr(w, s, e)
    case GridReply(s, _) => e.from == "grid" && e.CommandResponse? && e.to == w.client.node && SameCorr(w, s, e)
    case Relay(s, text) =>
      && e.from !in RESERVED_NODE_IDS && s in w.hub.trusted && s < |w.hub.frames| && w.hub.frames[s].text.parsed == Some(e)
      && w.hub.frames[s].conn < |w.hub.conns| && e.from in w.hub.conns[w.hub.frames[s].conn].owned
    case _ => false
  }

  predicate SameCorr(w: World, s: Serial, e: Envelope) {
    s < |w.hub.frames| && w.hub.frames[s].text.parsed.Some? && w.hub.frames[s].text.parsed.value.corr == e.corr
  }

  lemma RelayIsGenuine(w: World, s: Serial, text: Text, e: Envelope)
    requires Inv(w.hub) && DeliveryOk(w.hub, Delivery(w.k, Relay(s, text))) && text.parsed == Some(e)
    ensures Genuine(w, Relay(s, text), e)
  {
    var c := w.hub.frames[s].conn;
    assert OwnedOk(w.hub, c);
    if e.from in RESERVED_NODE_IDS {
      ValidIdIsNotReserved(e.from, e.from);
    }
  }

  lemma QueuedIsGenuine(w: World, m: Message, e: Envelope)
    requires WInv(w) && DeliveryOk(w.hub, Delivery(w.k, m)) && Read(m) == Some(e)
    ensures Genuine(w, m, e)
  {
    match m
    case Relay(s, text) => RelayIsGenuine(w, s, text, e);
    case HubReply(s, r) =>
    case GridReply(s, _) => ResponseIsForMe(w, s, e);
  }

  /** In every run, the answer a call got was queued for the client, ends a call, and says truly who gave it. */
  lemma AnswerIsGenuine(token: Option<string>, pre: seq<Step>, node: NodeId, regCorr: Corr, steps: seq<WStep>, corr: Corr)
    returns (i: nat)
    requires Legal(Start(token), pre) && WLegal(NewClient(Run(Start(token), pre), node, regCorr), steps)
    requires var w := WRun(NewClient(Run(Start(token), pre), node, regCorr), steps);
      corr in w.client.waiters && w.client.waiters[corr].Answered?
    ensures var w := WRun(NewClient(Run(Start(token), pre), node, regCorr), steps);
      var e := w.client.waiters[corr].envelope;
      && i < |w.hub.log| && w.hub.log[i].dest == w.k && Read(w.hub.log[i].message) == Some(e)
      && EndsCall(node, e) && Genuine(w, w.hub.log[i].message, e)
  {
    var w := WRun(NewClient(Run(Start(token), pre), node, regCorr), steps);
    var e := w.client.waiters[corr].envelope;
    ReachedWorld(token, pre, node, regCorr, steps);
    ReachedBooks(token, pre, node, regCorr, steps);
    assert WasRead(ReadSoFar(w), e);
    var j :| 0 <= j < |ReadSoFar(w)| && Read(ReadSoFar(w)[j]) == Some(e);
    i := InboxIsLogged(w.hub.log, w.k, j);
    assert DeliveryOk(w.hub, w.hub.log[i]);
    QueuedIsGenuine(w, w.hub.log[i].message, e);
  }
}
