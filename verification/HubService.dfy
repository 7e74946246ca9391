/**
 What one frame leads to when only the handler that received it moves, from the frame's arrival to
 the handler's return. A push that nothing disturbs finds the queue dead, and says `Closed`, exactly
 if it was dead before; otherwise it says `Ok` or `Full`, depending on the room in the queue. The
 theorems speak of every run of such steps to its end.
 */
module HubService {
  import opened Wrappers
  import opened Protocol
  import opened Hub
  import opened HubInv
  import opened HubEffects
  import opened HubSpec
  import opened HubTheorems
  import Outbox

  // ---- A handler on its own ----------------------------------------------------------------

  /** The handler of `c` goes on with the frame it has in hand. */
  predicate OwnStep(c: ConnId, step: Step) {
    && (step.Insert? || step.Adopt? || step.Lookup? || step.PushDest? || step.Prune? || step.Settle?
        || step.SendReply? || step.Spawn? || step.Fan? || step.FanEnd?)
    && step.c == c
  }

  predicate PromptStep(h: State, step: Step)
    requires Enabled(h, step)
  {
    match step
    case PushDest(c, r) => Prompt(h.conns[h.conns[c].task.dest], r)
    case SendReply(c, r) => Prompt(h.conns[c], r)
    case Fan(c, id, r) => Prompt(h.conns[h.conns[c].task.targets[id]], r)
    case _ => true
  }

  predicate Undisturbed(h: State, c: ConnId, steps: seq<Step>)
    requires Legal(h, steps)
    decreases steps
  {
    steps == [] || (
      OwnStep(c, steps[0]) && PromptStep(h, steps[0]) && Undisturbed(Apply(h, steps[0]), c, steps[1..]))
  }

  /** The steps are a run of the handler of `c` alone, until it returns. */
  predicate Finishes(h: State, c: ConnId, steps: seq<Step>) {
    && c < |h.conns| && Legal(h, steps) && Undisturbed(h, c, steps)
    && c < |Run(h, steps).conns| && Run(h, steps).conns[c].task.Idle?
  }

  // ---- One step of it ----------------------------------------------------------------------

  /** The rest of a handler's run, after a step that led to `h1`. */
  ghost predicate GoesOn(h: State, h1: State, c: ConnId, steps: seq<Step>) {
    steps != [] && Finishes(h1, c, steps[1..]) && Finishes(h, c, steps) && Run(h, steps) == Run(h1, steps[1..])
  }

  lemma Peel(h: State, c: ConnId, steps: seq<Step>)
    requires Finishes(h, c, steps) && !h.conns[c].task.Idle?
    ensures steps != [] && Enabled(h, steps[0]) && OwnStep(c, steps[0]) && PromptStep(h, steps[0])
    ensures GoesOn(h, Apply(h, steps[0]), c, steps)
  {
    StepEffect(h, steps[0]);
  }

  lemma NothingLeft(h: State, c: ConnId, steps: seq<Step>)
    requires Finishes(h, c, steps) && h.conns[c].task.Idle?
    ensures Run(h, steps) == h
  {
    if steps != [] {
      NoOwnStep(h, c, steps[0]);
    }
  }

  lemma NoOwnStep(h: State, c: ConnId, step: Step)
    requires c < |h.conns| && h.conns[c].task.Idle? && OwnStep(c, step)
    ensures !Enabled(h, step)
  {
  }

  lemma PeelInsert(h: State, c: ConnId, steps: seq<Step>)
    requires Finishes(h, c, steps) && h.conns[c].task.Inserting?
    ensures CanInsert(h, c) && GoesOn(h, DoInsert(h, c), c, steps)
  {
    Peel(h, c, steps);
  }

  lemma PeelAdopt(h: State, c: ConnId, steps: seq<Step>)
    requires Finishes(h, c, steps) && h.conns[c].task.Adopting?
    ensures CanAdopt(h, c) && GoesOn(h, DoAdopt(h, c), c, steps)
  {
    Peel(h, c, steps);
  }

  lemma PeelLookup(h: State, c: ConnId, steps: seq<Step>)
    requires Finishes(h, c, steps) && h.conns[c].task.Routing?
    ensures CanLookup(h, c) && GoesOn(h, DoLookup(h, c), c, steps)
  {
    Peel(h, c, steps);
  }

  lemma PeelPrune(h: State, c: ConnId, steps: seq<Step>)
    requires Finishes(h, c, steps) && h.conns[c].task.Pruning?
    ensures CanPrune(h, c) && GoesOn(h, DoPrune(h, c), c, steps)
  {
    Peel(h, c, steps);
  }

  lemma PeelSettle(h: State, c: ConnId, steps: seq<Step>)
    requires Finishes(h, c, steps) && h.conns[c].task.Settling?
    ensures CanSettle(h, c) && GoesOn(h, DoSettle(h, c), c, steps)
  {
    Peel(h, c, steps);
  }

  lemma PeelSpawn(h: State, c: ConnId, steps: seq<Step>)
    requires Finishes(h, c, steps) && h.conns[c].task.Spawning?
    ensures CanSpawn(h, c) && GoesOn(h, DoSpawn(h, c), c, steps)
  {
    Peel(h, c, steps);
  }

  lemma PeelPush(h: State, c: ConnId, steps: seq<Step>) returns (r: Outbox.PushResult)
    requires Finishes(h, c, steps) && h.conns[c].task.Pushing?
    ensures CanPush(h, c, r) && Prompt(h.conns[h.conns[c].task.dest], r) && GoesOn(h, DoPush(h, c, r), c, steps)
  {
    Peel(h, c, steps);
    r := steps[0].r;
  }

  lemma PeelReply(h: State, c: ConnId, steps: seq<Step>) returns (q: Outbox.PushResult)
    requires Finishes(h, c, steps) && h.conns[c].task.Replying?
    ensures CanReply(h, c, q) && Prompt(h.conns[c], q) && GoesOn(h, DoReply(h, c, q), c, steps)
  {
    Peel(h, c, steps);
    q := steps[0].r;
  }

  // ---- Frames that are passed on -----------------------------------------------------------

  /** What the handler says about a frame with this verdict, if anything. */
  function Answer(s: Serial, e: Envelope, v: Verdict): Option<Message> {
    var t := AfterVerdict(s, e, v);
    if t.Replying? then Some(HubReply(s, t.reply)) else None
  }

  /** What a reply leaves in the log, and what it does to the connection it goes to. */
  function Sent(dest: ConnId, m: Option<Message>, r: Outbox.PushResult): seq<Delivery> {
    if m.Some? && r.Ok? then [Delivery(dest, m.value)] else []
  }

  function Replied(conns: seq<Conn>, c: ConnId, m: Option<Message>, r: Outbox.PushResult): seq<Conn>
    requires c < |conns|
  {
    if m.Some? then Pushed(conns, c, r) else conns
  }

  function Tallied(stats: Stats, e: Envelope, v: Verdict): Stats {
    if !e.CommandRequest? then stats
    else if !(v.Queued? || v.Bridged?) then stats.(nacks := stats.nacks + 1)
    else if e.requireAck then stats.(acks := stats.acks + 1)
    else stats
  }

  predicate Spawns(e: Envelope, v: Verdict) {
    e.CommandRequest? && v.Bridged?
  }

  /** From the verdict on a frame to the handler's return: the reply, if any, and what it returned. */
  ghost predicate Settled(g: State, g': State, c: ConnId, conn: Conn, s: Serial, e: Envelope, v: Verdict, q: Outbox.PushResult)
    requires c < |g.conns|
  {
    var answer := Answer(s, e, v);
    && (answer.Some? ==> Prompt(conn, q))
    && g'.log == g.log + Sent(c, answer, q) && g'.stats == Tallied(g.stats, e, v) && g'.nodes == g.nodes
    && g'.conns == Replied(g.conns[c := conn], c, answer, q)
    && g'.jobs == (if Spawns(e, v) then g.jobs[s := Answering] else g.jobs)
  }

  /** The handler has its verdict and is about to count it. */
  predicate ToSettle(g: State, c: ConnId, conn: Conn, s: Serial, text: Text, v: Verdict) {
    c < |g.conns| && g.conns[c] == conn.(task := Settling(s, text, v)) && conn.task.Idle? && text.parsed.Some?
  }

  lemma SettleStep(g: State, c: ConnId, conn: Conn, s: Serial, text: Text, v: Verdict)
    requires ToSettle(g, c, conn, s, text, v)
    ensures var g1, e := DoSettle(g, c), text.parsed.value;
            && g1.log == g.log && g1.stats == Tallied(g.stats, e, v) && g1.nodes == g.nodes && g1.jobs == g.jobs
            && g1.conns == g.conns[c := conn.(task := AfterVerdict(s, e, v))]
  {
  }

  lemma AnswerShape(s: Serial, e: Envelope, v: Verdict)
    ensures var t := AfterVerdict(s, e, v);
            if Spawns(e, v) then (if e.requireAck then t == Replying(s, t.reply, SpawnAfter) else t == Spawning(s))
            else t.Idle? || t == Replying(s, t.reply, Continue)
  {
  }

  lemma ReplyStep(g: State, c: ConnId, conn: Conn, s: Serial, r: Reply, after: After, q: Outbox.PushResult)
    requires c < |g.conns| && conn.task.Idle? && !after.CloseAfter? && g.conns[c] == conn.(task := Replying(s, r, after)) && Permits(conn, q)
    ensures var g1, m := DoReply(g, c, q), Some(HubReply(s, r));
            && g1.log == g.log + Sent(c, m, q) && g1.stats == g.stats && g1.nodes == g.nodes && g1.jobs == g.jobs
            && (after.Continue? ==> g1.conns == Replied(g.conns[c := conn], c, m, q))
            && (after.SpawnAfter? ==> var conns := Replied(g.conns[c := conn], c, m, q);
                                      g1.conns == conns[c := conns[c].(task := Spawning(s))])
  {
  }

  lemma SettleQuietly(g: State, c: ConnId, conn: Conn, s: Serial, text: Text, v: Verdict, steps: seq<Step>)
    requires ToSettle(g, c, conn, s, text, v) && !Spawns(text.parsed.value, v) && Answer(s, text.parsed.value, v).None? && Finishes(g, c, steps)
    ensures Settled(g, Run(g, steps), c, conn, s, text.parsed.value, v, Outbox.Ok)
  {
    PeelSettle(g, c, steps);
    AnswerShape(s, text.parsed.value, v);
    SettleStep(g, c, conn, s, text, v);
    assert DoSettle(g, c).conns == g.conns[c := conn];
    NothingLeft(DoSettle(g, c), c, steps[1..]);
  }

  lemma SettleAndReply(g: State, c: ConnId, conn: Conn, s: Serial, text: Text, v: Verdict, steps: seq<Step>)
    returns (q: Outbox.PushResult)
    requires ToSettle(g, c, conn, s, text, v) && !Spawns(text.parsed.value, v) && Answer(s, text.parsed.value, v).Some? && Finishes(g, c, steps)
    ensures Settled(g, Run(g, steps), c, conn, s, text.parsed.value, v, q)
  {
    PeelSettle(g, c, steps);
    AnswerShape(s, text.parsed.value, v);
    SettleStep(g, c, conn, s, text, v);
    var g1 := DoSettle(g, c);
    q := PeelReply(g1, c, steps[1..]);
    assert g1.conns[c := conn] == g.conns[c := conn];
    ReplyStep(g1, c, conn, s, g1.conns[c].task.reply, Continue, q);
    NothingLeft(DoReply(g1, c, q), c, steps[1..][1..]);
  }

  lemma SpawnToEnd(g: State, c: ConnId, s: Serial, steps: seq<Step>)
    requires c < |g.conns| && g.conns[c].task == Spawning(s) && Finishes(g, c, steps)
    ensures Run(g, steps) == g.(conns := g.conns[c := g.conns[c].(task := Idle)], jobs := g.jobs[s := Answering])
  {
    PeelSpawn(g, c, steps);
    NothingLeft(DoSpawn(g, c), c, steps[1..]);
  }

  lemma SettleAndSpawn(g: State, c: ConnId, conn: Conn, s: Serial, text: Text, steps: seq<Step>)
    requires ToSettle(g, c, conn, s, text, Bridged) && IsCommand(text) && !text.parsed.value.requireAck && Finishes(g, c, steps)
    ensures Settled(g, Run(g, steps), c, conn, s, text.parsed.value, Bridged, Outbox.Ok)
  {
    PeelSettle(g, c, steps);
    AnswerShape(s, text.parsed.value, Bridged);
    SettleStep(g, c, conn, s, text, Bridged);
    var g1 := DoSettle(g, c);
    SpawnToEnd(g1, c, s, steps[1..]);
    assert g1.conns[c := g1.conns[c].(task := Idle)] == g.conns[c := conn];
  }

  lemma SettleReplyAndSpawn(g: State, c: ConnId, conn: Conn, s: Serial, text: Text, steps: seq<Step>)
    returns (q: Outbox.PushResult)
    requires ToSettle(g, c, conn, s, text, Bridged) && IsCommand(text) && text.parsed.value.requireAck && Finishes(g, c, steps)
    ensures Settled(g, Run(g, steps), c, conn, s, text.parsed.value, Bridged, q)
  {
    PeelSettle(g, c, steps);
    AnswerShape(s, text.parsed.value, Bridged);
    SettleStep(g, c, conn, s, text, Bridged);
    var g1 := DoSettle(g, c);
    assert g1.conns[c := conn] == g.conns[c := conn];
    q := PeelReply(g1, c, steps[1..]);
    ReplyStep(g1, c, conn, s, g1.conns[c].task.reply, SpawnAfter, q);
    var g2 := DoReply(g1, c, q);
    SpawnToEnd(g2, c, s, steps[1..][1..]);
    assert g2.conns[c := g2.conns[c].(task := Idle)] == Replied(g.conns[c := conn], c, Answer(s, text.parsed.value, Bridged), q);
  }

  lemma SettleFrame(g: State, c: ConnId, conn: Conn, s: Serial, text: Text, v: Verdict, steps: seq<Step>)
    returns (q: Outbox.PushResult)
    requires ToSettle(g, c, conn, s, text, v) && Finishes(g, c, steps)
    ensures Settled(g, Run(g, steps), c, conn, s, text.parsed.value, v, q)
  {
    q := Outbox.Ok;
    if Spawns(text.parsed.value, v) && text.parsed.value.requireAck {
      q := SettleReplyAndSpawn(g, c, conn, s, text, steps);
    } else if Spawns(text.parsed.value, v) {
      SettleAndSpawn(g, c, conn, s, text, steps);
    } else if Answer(s, text.parsed.value, v).Some? {
      q := SettleAndReply(g, c, conn, s, text, v, steps);
    } else {
      SettleQuietly(g, c, conn, s, text, v, steps);
    }
  }

  // ---- Finding the target ------------------------------------------------------------------

  /** The handler has the target's queue in hand. */
  predicate ToPush(g: State, c: ConnId, conn: Conn, s: Serial, text: Text, d: ConnId) {
    && c < |g.conns| && g.conns[c] == conn.(task := Pushing(s, text, d)) && conn.task.Idle? && text.parsed.Some?
    && d < |g.conns| && text.parsed.value.to in g.nodes && g.nodes[text.parsed.value.to] == d
  }

  /** From the push of a frame to its verdict; `g'` is the state in which the verdict is counted. */
  ghost predicate PushedFrame(g: State, g': State, c: ConnId, conn: Conn, s: Serial, text: Text, d: ConnId, r: Outbox.PushResult)
    requires c < |g.conns| && d < |g.conns| && text.parsed.Some?
  {
    var conns := Pushed(g.conns[c := conn], d, r);
    && g'.log == g.log + Sent(d, Some(Relay(s, text)), r) && g'.stats == g.stats && g'.jobs == g.jobs
    && g'.nodes == (if r.Closed? then g.nodes - {text.parsed.value.to} else g.nodes)
    && g'.conns == conns[c := conns[c].(task := Settling(s, text, VerdictOf(d, r)))]
  }

  lemma PushStep(g: State, c: ConnId, conn: Conn, s: Serial, text: Text, d: ConnId, r: Outbox.PushResult)
    requires ToPush(g, c, conn, s, text, d) && CanPush(g, c, r) && !r.Closed?
    ensures PushedFrame(g, DoPush(g, c, r), c, conn, s, text, d, r)
  {
    var conns := Pushed(g.conns[c := conn], d, r);
    assert DoPush(g, c, r).conns == conns[c := conns[c].(task := Settling(s, text, VerdictOf(d, r)))];
  }

  lemma PruneStep(g: State, c: ConnId, conn: Conn, s: Serial, text: Text, d: ConnId)
    requires ToPush(g, c, conn, s, text, d) && CanPush(g, c, Outbox.Closed) && CanPrune(DoPush(g, c, Outbox.Closed), c)
    ensures PushedFrame(g, DoPrune(DoPush(g, c, Outbox.Closed), c), c, conn, s, text, d, Outbox.Closed)
  {
  }

  /** From the push of a frame to the handler's return. */
  lemma PushFrame(g: State, c: ConnId, conn: Conn, s: Serial, text: Text, d: ConnId, steps: seq<Step>)
    returns (r: Outbox.PushResult, g1: State, rest: seq<Step>)
    requires ToPush(g, c, conn, s, text, d) && Finishes(g, c, steps)
    ensures Prompt(g.conns[d], r) && PushedFrame(g, g1, c, conn, s, text, d, r)
    ensures Finishes(g1, c, rest) && Run(g, steps) == Run(g1, rest)
  {
    r := PeelPush(g, c, steps);
    g1, rest := DoPush(g, c, r), steps[1..];
    if r.Closed? {
      PeelPrune(g1, c, rest);
      PruneStep(g, c, conn, s, text, d);
      g1, rest := DoPrune(g1, c), rest[1..];
    } else {
      PushStep(g, c, conn, s, text, d, r);
    }
  }

  predicate Targets(h: State, e: Envelope) {
    !(e.CommandRequest? && GridTargeted(e)) && e.to in h.nodes
  }

  /** How the frame ends; `r` is what the push to its target returns, if it has one. */
  function VerdictFor(h: State, e: Envelope, r: Outbox.PushResult): Verdict {
    if e.CommandRequest? && GridTargeted(e) then (if h.bridge then Bridged else NoBridge)
    else if e.to in h.nodes then VerdictOf(h.nodes[e.to], r)
    else Refused(false)
  }

  /** The whole effect of a frame, as the handler's functions have it. */
  ghost predicate Routed(h: State, h': State, c: ConnId, text: Text, stats: Stats, r: Outbox.PushResult, q: Outbox.PushResult)
    requires c < |h.conns| && text.parsed.Some? && NodesOk(h)
  {
    var s, e := |h.frames|, text.parsed.value;
    var v := VerdictFor(h, e, r);
    var conns := if Targets(h, e) then Pushed(h.conns, h.nodes[e.to], r) else h.conns;
    && (Targets(h, e) ==> Prompt(h.conns[h.nodes[e.to]], r))
    && (Answer(s, e, v).Some? ==> Prompt(conns[c], q))
    && h'.log == h.log + (if v.Queued? then [Delivery(v.dest, Relay(s, text))] else []) + Sent(c, Answer(s, e, v), q)
    && h'.stats == Tallied(stats, e, v)
    && h'.nodes == (if Targets(h, e) && r.Closed? then h.nodes - {e.to} else h.nodes)
    && h'.conns == Replied(conns, c, Answer(s, e, v), q)
    && h'.jobs == (if Spawns(e, v) then h.jobs[s := Answering] else h.jobs)
  }

  lemma LookupStep(g: State, c: ConnId, text: Text)
    requires CanLookup(g, c) && g.conns[c].task.text == text
    ensures var g1, s, e := DoLookup(g, c), g.conns[c].task.serial, text.parsed.value;
            && g1.log == g.log && g1.nodes == g.nodes && g1.jobs == g.jobs && g1.stats == g.stats
            && g1.conns == g.conns[c := g.conns[c].(task :=
                 if Targets(g, e) then Pushing(s, text, g.nodes[e.to]) else Settling(s, text, VerdictFor(g, e, Outbox.Ok)))]
  {
    var s, e := g.conns[c].task.serial, text.parsed.value;
    if Targets(g, e) {
      assert DoLookup(g, c) == SetTask(g, c, Pushing(s, text, g.nodes[e.to]));
    } else {
      assert DoLookup(g, c) == Decide(g, c, s, text, VerdictFor(g, e, Outbox.Ok));
    }
  }

  /** The handler of `c` has gone on with a frame to `t`; only the counters changed on the way. */
  predicate Reaches(h: State, h': State, c: ConnId, t: Task, stats: Stats) {
    && c < |h.conns| && h.conns[c].task.Idle? && h'.conns == h.conns[c := h.conns[c].(task := t)]
    && h'.log == h.log && h'.nodes == h.nodes && h'.jobs == h.jobs && h'.bridge == h.bridge && h'.stats == stats
  }

  lemma ToTarget(h: State, h2: State, c: ConnId, text: Text, stats: Stats, steps: seq<Step>)
    returns (r: Outbox.PushResult, q: Outbox.PushResult)
    requires text.parsed.Some? && NodesOk(h) && Targets(h, text.parsed.value) && Finishes(h2, c, steps)
    requires Reaches(h, h2, c, Pushing(|h.frames|, text, h.nodes[text.parsed.value.to]), stats)
    ensures Routed(h, Run(h2, steps), c, text, stats, r, q)
  {
    var s, conn, d := |h.frames|, h.conns[c], h.nodes[text.parsed.value.to];
    assert h2.conns[c := conn] == h.conns;
    var h3: State, rest: seq<Step>;
    r, h3, rest := PushFrame(h2, c, conn, s, text, d, steps);
    var conns := Pushed(h.conns, d, r);
    assert h3.conns[c := conns[c]] == conns;
    q := SettleFrame(h3, c, conns[c], s, text, VerdictOf(d, r), rest);
  }

  lemma Elsewhere(h: State, h2: State, c: ConnId, text: Text, stats: Stats, steps: seq<Step>) returns (q: Outbox.PushResult)
    requires text.parsed.Some? && NodesOk(h) && !Targets(h, text.parsed.value) && Finishes(h2, c, steps)
    requires Reaches(h, h2, c, Settling(|h.frames|, text, VerdictFor(h, text.parsed.value, Outbox.Ok)), stats)
    ensures Routed(h, Run(h2, steps), c, text, stats, Outbox.Ok, q)
  {
    assert h2.conns[c := h.conns[c]] == h.conns;
    q := SettleFrame(h2, c, h.conns[c], |h.frames|, text, VerdictFor(h, text.parsed.value, Outbox.Ok), steps);
  }

  lemma RoutedToEnd(h: State, h1: State, c: ConnId, text: Text, stats: Stats, steps: seq<Step>)
    returns (r: Outbox.PushResult, q: Outbox.PushResult)
    requires text.parsed.Some? && NodesOk(h) && Finishes(h1, c, steps)
    requires Reaches(h, h1, c, Routing(|h.frames|, text), stats)
    ensures Routed(h, Run(h1, steps), c, text, stats, r, q)
  {
    PeelLookup(h1, c, steps);
    LookupStep(h1, c, text);
    var h2 := DoLookup(h1, c);
    assert h2.conns == h.conns[c := h2.conns[c]];
    r := Outbox.Ok;
    if Targets(h, text.parsed.value) {
      r, q := ToTarget(h, h2, c, text, stats, steps[1..]);
    } else {
      q := Elsewhere(h, h2, c, text, stats, steps[1..]);
    }
  }

  // ---- What the specification says about them ----------------------------------------------

  lemma GridIsGrid(e: Envelope)
    ensures ForGrid(e) <==> e.CommandRequest? && GridTargeted(e)
  {
  }

  lemma AnswerIsTold(h: State, s: Serial, e: Envelope, r: Outbox.PushResult)
    requires PassedOn(e)
    ensures var v, told := VerdictFor(h, e, r), ToldSender(e, FateOf(h, e, r));
            var m := Answer(s, e, v);
            && (m.Some? <==> told.Some?) && (m.Some? ==> m.value.HubReply? && m.value.serial == s && Read(m.value) == told)
  {
    GridIsGrid(e);
  }

  /** The counters once the frame is counted by its type. */
  function CountedIn(stats: Stats, e: Envelope): Stats {
    stats.(commands := stats.commands + One(e.CommandRequest?), responses := stats.responses + One(e.CommandResponse?),
           data := stats.data + One(e.DataPayload?))
  }

  lemma FateIsVerdict(h: State, e: Envelope, r: Outbox.PushResult, stats: Stats)
    requires PassedOn(e)
    ensures var v, fate := VerdictFor(h, e, r), FateOf(h, e, r);
            && (v.Queued? <==> fate.Delivered?) && (v.Queued? ==> e.to in h.nodes && v.dest == h.nodes[e.to])
            && (Spawns(e, v) <==> fate.ToBridge?) && (Targets(h, e) <==> HasTarget(h, e))
            && Tallied(CountedIn(stats, e), e, v) == Counted(stats, e, fate)
  {
    GridIsGrid(e);
  }

  lemma RoutedIsWell(h: State, h': State, c: ConnId, text: Text, r: Outbox.PushResult, q: Outbox.PushResult)
    requires c < |h.conns| && text.parsed.Some? && NodesOk(h) && PassedOn(text.parsed.value)
    requires Routed(h, h', c, text, CountedIn(h.stats, text.parsed.value), r, q)
    ensures PassedOnWell(h, h', c, text, r, q)
  {
    var s, e := |h.frames|, text.parsed.value;
    AnswerIsTold(h, s, e, r);
    FateIsVerdict(h, e, r, h.stats);
    var relayed := if FateOf(h, e, r).Delivered? then [Delivery(h.nodes[e.to], Relay(s, text))] else [];
    assert h'.log == h.log + relayed + Sent(c, Answer(s, e, VerdictFor(h, e, r)), q);
  }

  /** A frame from a registered sender that is to be passed on. */
  predicate Addressed(h: State, c: ConnId, text: Text) {
    AtRest(h, c) && text.parsed.Some? && text.parsed.value.from in h.conns[c].owned && PassedOn(text.parsed.value)
  }

  lemma ReceiveAddressed(h: State, c: ConnId, text: Text)
    requires Addressed(h, c, text)
    ensures Reaches(h, DoReceive(h, c, text), c, Routing(|h.frames|, text), CountedIn(h.stats, text.parsed.value))
  {
    assert HandleText(h, h.conns[c], |h.frames|, text) == Next(Routing(|h.frames|, text));
  }

  /** Every run of the handler on such a frame, to its end, has the effect it should. */
  lemma PassedOnOutcome(h: State, c: ConnId, text: Text, steps: seq<Step>) returns (r: Outbox.PushResult, q: Outbox.PushResult)
    requires Addressed(h, c, text) && NodesOk(h) && Finishes(DoReceive(h, c, text), c, steps)
    ensures PassedOnWell(h, Run(DoReceive(h, c, text), steps), c, text, r, q)
  {
    ReceiveAddressed(h, c, text);
    r, q := RoutedToEnd(h, DoReceive(h, c, text), c, text, CountedIn(h.stats, text.parsed.value), steps);
    RoutedIsWell(h, Run(DoReceive(h, c, text), steps), c, text, r, q);
  }

  // ---- Registration ------------------------------------------------------------------------

  /** A registration; before the first one, frames are limited in size. */
  predicate Registers(h: State, c: ConnId, text: Text) {
    && AtRest(h, c) && (h.conns[c].owned == [] ==> ByteLen(text.raw) <= PRE_REGISTRATION_MAX_BYTES)
    && text.parsed.Some? && text.parsed.value.NodeRegistration?
  }

  /** The connection after a refused registration, and after an accepted one. */
  function Turned(conn: Conn): Conn {
    if conn.owned == [] then conn.(phase := Exited(true)) else conn
  }

  function Granted(conn: Conn, id: NodeId): Conn {
    if id in conn.owned then conn else conn.(owned := conn.owned + [id])
  }

  /** The state in which the reply `m` was pushed with result `q`, and the connection went on as `conn`. */
  ghost predicate Told(g: State, g': State, c: ConnId, conn: Conn, m: Message, q: Outbox.PushResult)
    requires c < |g.conns|
  {
    && Prompt(g.conns[c], q) && g'.log == g.log + Sent(c, Some(m), q)
    && g'.stats == g.stats && g'.nodes == g.nodes && g'.jobs == g.jobs
    && g'.conns == Pushed(g.conns[c := conn], c, q)
  }

  /** The connection once its reply is pushed. */
  function Onward(conn: Conn): Conn
    requires conn.task.Replying?
  {
    if conn.task.after.CloseAfter? then conn.(task := Idle, phase := Exited(true)) else conn.(task := Idle)
  }

  lemma LastReply(g: State, c: ConnId, q: Outbox.PushResult)
    requires CanReply(g, c, q) && !g.conns[c].task.after.SpawnAfter?
    ensures var g', m := DoReply(g, c, q), HubReply(g.conns[c].task.serial, g.conns[c].task.reply);
            && g'.log == g.log + Sent(c, Some(m), q) && g'.stats == g.stats && g'.nodes == g.nodes && g'.jobs == g.jobs
            && g'.conns == Pushed(g.conns[c := Onward(g.conns[c])], c, q) && g'.conns[c].task.Idle?
  {
    assert DoReply(g, c, q).conns == Pushed(g.conns[c := Onward(g.conns[c])], c, q);
  }

  lemma EndReply(g: State, c: ConnId, conn: Conn, steps: seq<Step>) returns (q: Outbox.PushResult)
    requires c < |g.conns| && g.conns[c].task.Replying? && !g.conns[c].task.after.SpawnAfter? && Finishes(g, c, steps)
    requires conn == Onward(g.conns[c])
    ensures Told(g, Run(g, steps), c, conn, HubReply(g.conns[c].task.serial, g.conns[c].task.reply), q)
  {
    q := PeelReply(g, c, steps);
    LastReply(g, c, q);
    NothingLeft(DoReply(g, c, q), c, steps[1..]);
  }

  lemma ReceiveRegistration(h: State, c: ConnId, text: Text)
    requires Registers(h, c, text)
    ensures var h1 := DoReceive(h, c, text);
            && h1.frames == h.frames + [Received(c, text)]
            && Reaches(h, h1, c, HandleRegistration(h, h.conns[c], |h.frames|, text.parsed.value), h.stats)
  {
  }

  lemma InsertStep(g: State, c: ConnId, conn: Conn, s: Serial, id: NodeId)
    requires c < |g.conns| && g.conns[c] == conn.(task := Inserting(s, id)) && conn.task.Idle?
    ensures var g1, taken := DoInsert(g, c), HeldByLivePeer(g, c, id);
            && g1.log == g.log && g1.stats == g.stats && g1.frames == g.frames && g1.jobs == g.jobs
            && g1.nodes == (if taken then g.nodes else g.nodes[id := c])
            && g1.conns == g.conns[c := conn.(task :=
                 if taken then Replying(s, Reply(Refusal(DuplicateNodeId), CorrOf(g, s), id, true), CloseIfFirst(conn))
                 else Adopting(s, id))]
  {
  }

  lemma AdoptStep(g: State, c: ConnId, conn: Conn, s: Serial, id: NodeId)
    requires c < |g.conns| && g.conns[c] == conn.(task := Adopting(s, id)) && conn.task.Idle?
    ensures DoAdopt(g, c) == g.(conns := g.conns[c := Granted(conn, id).(task :=
              Replying(s, Reply(RegistrationAccepted, CorrOf(g, s), id, false), Continue))])
  {
  }

  /** The write-locked part of a registration and what follows. */
  lemma InsertOutcome(g: State, c: ConnId, conn: Conn, s: Serial, e: Envelope, steps: seq<Step>) returns (reply: ReplyKind, q: Outbox.PushResult)
    requires c < |g.conns| && g.conns[c] == conn.(task := Inserting(s, e.from)) && conn.task.Idle?
    requires CorrOf(g, s) == e.corr && Finishes(g, c, steps)
    ensures var g', taken := Run(g, steps), HeldByLivePeer(g, c, e.from);
            && Prompt(conn, q) && reply == (if taken then Refusal(DuplicateNodeId) else RegistrationAccepted)
            && g'.log == g.log + Sent(c, Some(HubReply(s, Reply(reply, e.corr, e.from, taken))), q)
            && g'.stats == g.stats && g'.jobs == g.jobs
            && g'.nodes == (if taken then g.nodes else g.nodes[e.from := c])
            && g'.conns == Pushed(g.conns[c := if taken then Turned(conn) else Granted(conn, e.from)], c, q)
  {
    PeelInsert(g, c, steps);
    InsertStep(g, c, conn, s, e.from);
    var g1 := DoInsert(g, c);
    if HeldByLivePeer(g, c, e.from) {
      reply := Refusal(DuplicateNodeId);
      q := EndReply(g1, c, Turned(conn), steps[1..]);
      assert g1.conns[c := Turned(conn)] == g.conns[c := Turned(conn)];
    } else {
      reply := RegistrationAccepted;
      PeelAdopt(g1, c, steps[1..]);
      AdoptStep(g1, c, conn, s, e.from);
      var g2 := DoAdopt(g1, c);
      q := EndReply(g2, c, Granted(conn, e.from), steps[1..][1..]);
      assert g2.conns[c := Granted(conn, e.from)] == g.conns[c := Granted(conn, e.from)];
    }
  }

  /** The effect of a registration whose reply is `reply`. */
  ghost predicate Registered(h: State, h': State, c: ConnId, e: Envelope, reply: ReplyKind, q: Outbox.PushResult)
    requires c < |h.conns|
  {
    var ok, conn := reply.RegistrationAccepted?, h.conns[c];
    && Prompt(conn, q)
    && h'.log == h.log + Sent(c, Some(HubReply(|h.frames|, Reply(reply, e.corr, e.from, !ok))), q)
    && h'.stats == h.stats && h'.jobs == h.jobs
    && h'.nodes == (if ok then h.nodes[e.from := c] else h.nodes)
    && h'.conns == Pushed(h.conns[c := if ok then Granted(conn, e.from) else Turned(conn)], c, q)
  }

  function ReplyTo(why: Option<NackCode>): ReplyKind {
    if why.None? then RegistrationAccepted else Refusal(why.value)
  }

  lemma RegisteredIsWell(h: State, h': State, c: ConnId, e: Envelope, q: Outbox.PushResult)
    requires c < |h.conns| && e.NodeRegistration? && NodesOk(h) && Registered(h, h', c, e, ReplyTo(WhyNot(h, c, e)), q)
    ensures RegisteredWell(h, h', c, e, q)
  {
  }

  /** What the handler makes of the registration before it takes the lock. */
  lemma RegistrationDecision(h: State, c: ConnId, s: Serial, e: Envelope)
    requires c < |h.conns| && e.NodeRegistration? && NodesOk(h)
    ensures var t, why := HandleRegistration(h, h.conns[c], s, e), WhyNot(h, c, e);
            if why == Some(Unauthorized) || why == Some(InvalidNodeId)
            then t == Replying(s, Reply(Refusal(why.value), e.corr, e.from, true), CloseIfFirst(h.conns[c]))
            else t == Inserting(s, e.from) && why == if HeldByLivePeer(h, c, e.from) then Some(DuplicateNodeId) else None
  {
  }

  lemma RefusedAtOnce(h: State, h1: State, c: ConnId, e: Envelope, code: NackCode, steps: seq<Step>) returns (q: Outbox.PushResult)
    requires c < |h.conns| && Finishes(h1, c, steps)
    requires Reaches(h, h1, c, Replying(|h.frames|, Reply(Refusal(code), e.corr, e.from, true), CloseIfFirst(h.conns[c])), h.stats)
    ensures Registered(h, Run(h1, steps), c, e, Refusal(code), q)
  {
    var conn := h.conns[c];
    q := EndReply(h1, c, Turned(conn), steps);
    assert h1.conns[c := Turned(conn)] == h.conns[c := Turned(conn)];
  }

  lemma InsertedOrNot(h: State, h1: State, c: ConnId, e: Envelope, steps: seq<Step>) returns (q: Outbox.PushResult)
    requires Finishes(h1, c, steps) && Reaches(h, h1, c, Inserting(|h.frames|, e.from), h.stats)
    requires CorrOf(h1, |h.frames|) == e.corr
    ensures Registered(h, Run(h1, steps), c, e, if HeldByLivePeer(h, c, e.from) then Refusal(DuplicateNodeId) else RegistrationAccepted, q)
  {
    var conn := h.conns[c];
    assert HeldByLivePeer(h1, c, e.from) == HeldByLivePeer(h, c, e.from);
    var reply;
    reply, q := InsertOutcome(h1, c, conn, |h.frames|, e, steps);
    var next := if HeldByLivePeer(h, c, e.from) then Turned(conn) else Granted(conn, e.from);
    assert h1.conns[c := next] == h.conns[c := next];
  }

  /** Every run of the handler on a registration, to its end, has the effect it should. */
  lemma RegistrationOutcome(h: State, c: ConnId, text: Text, steps: seq<Step>) returns (q: Outbox.PushResult)
    requires Registers(h, c, text) && NodesOk(h) && Finishes(DoReceive(h, c, text), c, steps)
    ensures RegisteredWell(h, Run(DoReceive(h, c, text), steps), c, text.parsed.value, q)
  {
    var s, e := |h.frames|, text.parsed.value;
    ReceiveRegistration(h, c, text);
    RegistrationDecision(h, c, s, e);
    var h1, why := DoReceive(h, c, text), WhyNot(h, c, e);
    if why == Some(Unauthorized) || why == Some(InvalidNodeId) {
      q := RefusedAtOnce(h, h1, c, e, why.value, steps);
    } else {
      assert h1.frames[s].text == text;
      q := InsertedOrNot(h, h1, c, e, steps);
    }
    RegisteredIsWell(h, Run(h1, steps), c, e, q);
  }

  // ---- Frames the hub answers itself, and the rest -----------------------------------------

  /** The reply to a frame, and nothing more. */
  lemma AnsweredOutcome(h: State, c: ConnId, text: Text, reply: Reply, after: After, steps: seq<Step>) returns (q: Outbox.PushResult)
    requires AtRest(h, c) && !after.SpawnAfter? && Finishes(DoReceive(h, c, text), c, steps)
    requires HandleText(h, h.conns[c], |h.frames|, text) == Next(Replying(|h.frames|, reply, after))
    ensures var conn := if after.CloseAfter? then h.conns[c].(phase := Exited(true)) else h.conns[c];
            Answered(h, Run(DoReceive(h, c, text), steps), c, conn, Render(reply), q)
  {
    var h1 := DoReceive(h, c, text);
    var conn := if after.CloseAfter? then h.conns[c].(phase := Exited(true)) else h.conns[c];
    assert h1.conns == h.conns[c := h.conns[c].(task := Replying(|h.frames|, reply, after))];
    assert h1.log == h.log && h1.stats == h.stats && h1.nodes == h.nodes && h1.jobs == h.jobs;
    q := EndReply(h1, c, conn, steps);
    assert h1.conns[c := conn] == h.conns[c := conn];
  }

  lemma NothingOutcome(h: State, c: ConnId, text: Text, steps: seq<Step>)
    requires AtRest(h, c) && Finishes(DoReceive(h, c, text), c, steps)
    requires !HandleText(h, h.conns[c], |h.frames|, text).Next?
    ensures var left := HandleText(h, h.conns[c], |h.frames|, text).Leave?;
            var conn := if left then h.conns[c].(phase := Exited(false)) else h.conns[c];
            NothingBut(h, Run(DoReceive(h, c, text), steps), c, conn)
  {
    NothingLeft(DoReceive(h, c, text), c, steps);
    assert h.conns[c := h.conns[c]] == h.conns;
  }

  // ---- Broadcasts --------------------------------------------------------------------------

  /** A broadcast on its way: the copies so far, and the targets left. */
  ghost predicate Midway(h: State, g: State, c: ConnId, text: Text) {
    && text.parsed.Some? && c < |g.conns| && g.conns[c].task.Fanning?
    && g.conns[c].task.serial == |h.frames| && g.conns[c].task.text == text
    && (forall id :: id in g.conns[c].task.targets ==>
          id in h.nodes && id != text.parsed.value.from && g.conns[c].task.targets[id] == h.nodes[id])
    && FannedOut(h, SetTask(g, c, Idle), c, text)
  }

  lemma FannedFurther(h: State, g: State, c: ConnId, text: Text, id: NodeId, r: Outbox.PushResult)
    requires text.parsed.Some? && FannedOut(h, g, c, text) && id in h.nodes && id != text.parsed.value.from && h.nodes[id] < |g.conns|
    ensures FannedOut(h, Push(g, h.nodes[id], Relay(|h.frames|, text), r), c, text)
  {
    assert ToOther(h, text.parsed.value.from, h.nodes[id]);
  }

  lemma FanOnward(h: State, g: State, c: ConnId, text: Text, id: NodeId, r: Outbox.PushResult)
    requires Midway(h, g, c, text) && CanFan(g, c, id, r)
    ensures Midway(h, DoFan(g, c, id, r), c, text)
  {
    var m, d := Relay(|h.frames|, text), h.nodes[id];
    FannedFurther(h, SetTask(g, c, Idle), c, text, id, r);
    var g1 := DoFan(g, c, id, r);
    assert SetTask(g1, c, Idle).conns == Push(SetTask(g, c, Idle), d, m, r).conns;
    assert SetTask(g1, c, Idle) == Push(SetTask(g, c, Idle), d, m, r);
  }

  lemma {:induction false} FanToEnd(h: State, g: State, c: ConnId, text: Text, steps: seq<Step>)
    requires Midway(h, g, c, text) && Finishes(g, c, steps)
    ensures FannedOut(h, Run(g, steps), c, text)
    decreases steps
  {
    Peel(g, c, steps);
    if steps[0].Fan? {
      FanOnward(h, g, c, text, steps[0].id, steps[0].r);
      FanToEnd(h, Apply(g, steps[0]), c, text, steps[1..]);
    } else {
      assert Apply(g, steps[0]) == SetTask(g, c, Idle);
      NothingLeft(SetTask(g, c, Idle), c, steps[1..]);
    }
  }

  lemma BroadcastOutcome(h: State, c: ConnId, text: Text, steps: seq<Step>)
    requires AtRest(h, c) && text.parsed.Some? && text.parsed.value.Broadcast? && text.parsed.value.from in h.conns[c].owned
    requires Finishes(DoReceive(h, c, text), c, steps)
    ensures FannedOut(h, Run(DoReceive(h, c, text), steps), c, text)
  {
    var h1, from := DoReceive(h, c, text), text.parsed.value.from;
    assert h1.conns == h.conns[c := h.conns[c].(task := Fanning(|h.frames|, text, h.nodes - {from}))];
    assert SetTask(h1, c, Idle).conns == h.conns;
    FanToEnd(h, h1, c, text, steps);
  }

  // ---- Every frame -------------------------------------------------------------------------

  predicate SameHub(h: State, h': State) {
    h'.frames == h.frames && h'.token == h.token && h'.bridge == h.bridge
  }

  lemma LookupKeeps(h: State, c: ConnId)
    requires CanLookup(h, c)
    ensures SameHub(h, DoLookup(h, c))
  {
  }

  lemma SettleKeeps(h: State, c: ConnId)
    requires CanSettle(h, c)
    ensures SameHub(h, DoSettle(h, c))
  {
  }

  lemma InsertKeeps(h: State, c: ConnId)
    ensures CanInsert(h, c) ==> SameHub(h, DoInsert(h, c))
    ensures CanAdopt(h, c) ==> SameHub(h, DoAdopt(h, c))
    ensures CanPrune(h, c) ==> SameHub(h, DoPrune(h, c))
    ensures CanSpawn(h, c) ==> SameHub(h, DoSpawn(h, c))
  {
  }

  lemma PushKeeps(h: State, c: ConnId, r: Outbox.PushResult)
    ensures CanPush(h, c, r) ==> SameHub(h, DoPush(h, c, r))
    ensures CanReply(h, c, r) ==> SameHub(h, DoReply(h, c, r))
  {
  }

  lemma FanKeeps(h: State, c: ConnId, id: NodeId, r: Outbox.PushResult)
    requires CanFan(h, c, id, r)
    ensures SameHub(h, DoFan(h, c, id, r))
  {
  }

  lemma OwnStepKeeps(h: State, c: ConnId, step: Step)
    requires Enabled(h, step) && OwnStep(c, step)
    ensures SameHub(h, Apply(h, step))
  {
    match step
    case Lookup(_) => LookupKeeps(h, c);
    case Settle(_) => SettleKeeps(h, c);
    case PushDest(_, r) => PushKeeps(h, c, r);
    case SendReply(_, r) => PushKeeps(h, c, r);
    case Fan(_, id, r) => FanKeeps(h, c, id, r);
    case FanEnd(_) => assert SameHub(h, SetTask(h, c, Idle));
    case _ => InsertKeeps(h, c);
  }

  lemma {:induction false} HandlerKeeps(h: State, c: ConnId, steps: seq<Step>)
    requires Legal(h, steps) && Undisturbed(h, c, steps)
    ensures SameHub(h, Run(h, steps))
    decreases steps
  {
    if steps != [] {
      OwnStepKeeps(h, c, steps[0]);
      HandlerKeeps(Apply(h, steps[0]), c, steps[1..]);
    }
  }

  lemma ReceiveKeeps(h: State, c: ConnId, text: Text)
    requires AtRest(h, c)
    ensures var h' := DoReceive(h, c, text);
            h'.frames == h.frames + [Received(c, text)] && h'.token == h.token && h'.bridge == h.bridge
  {
    EnactKeeps(Record(h, c, text), c, |h.frames|, HandleText(h, h.conns[c], |h.frames|, text));
  }

  lemma EnactKeeps(h: State, c: ConnId, s: Serial, d: Decision)
    requires c < |h.conns|
    ensures SameHub(h, Enact(h, c, s, d))
  {
  }

  lemma OwnFrameOutcome(h: State, c: ConnId, text: Text, steps: seq<Step>) returns (r: Outbox.PushResult, q: Outbox.PushResult)
    requires AtRest(h, c) && NodesOk(h) && Finishes(DoReceive(h, c, text), c, steps)
    requires text.parsed.Some? && text.parsed.value.from in h.conns[c].owned
    requires var e := text.parsed.value;
             !e.NodeRegistration? && !e.NodeRegistrationAck? && !e.NodeListResponse? && !e.HeartbeatAck?
    ensures OwnFrameWell(h, Run(DoReceive(h, c, text), steps), c, text, r, q)
  {
    var e, s := text.parsed.value, |h.frames|;
    r, q := Outbox.Ok, Outbox.Ok;
    if PassedOn(e) {
      r, q := PassedOnOutcome(h, c, text, steps);
    } else if e.NodeList? {
      q := AnsweredOutcome(h, c, text, Reply(Catalog(Online(h)), e.corr, e.from, false), Continue, steps);
    } else if e.Heartbeat? {
      q := AnsweredOutcome(h, c, text, Reply(Beat, e.corr, e.from, false), Continue, steps);
    } else if e.Broadcast? {
      BroadcastOutcome(h, c, text, steps);
    } else {
      NothingOutcome(h, c, text, steps);
    }
  }

  /**
   Whatever frame a connection receives in whatever state: every run of its handler, left to itself
   until it returns, does with it exactly what it should.
   */
  lemma FrameOutcome(h: State, c: ConnId, text: Text, steps: seq<Step>) returns (r: Outbox.PushResult, q: Outbox.PushResult)
    requires AtRest(h, c) && NodesOk(h) && Finishes(DoReceive(h, c, text), c, steps)
    ensures HandledWell(h, Run(DoReceive(h, c, text), steps), c, text, r, q)
  {
    var conn, s := h.conns[c], |h.frames|;
    ReceiveKeeps(h, c, text);
    HandlerKeeps(DoReceive(h, c, text), c, steps);
    r, q := Outbox.Ok, Outbox.Ok;
    if text.parsed.None? || (conn.owned == [] && ByteLen(text.raw) > 65536) {
      NothingOutcome(h, c, text, steps);
    } else {
      var e := text.parsed.value;
      if e.NodeRegistration? {
        q := RegistrationOutcome(h, c, text, steps);
      } else if conn.owned == [] {
        q := AnsweredOutcome(h, c, text, Reply(Refusal(NotRegistered), e.corr, e.from, true), CloseAfter, steps);
      } else if e.NodeRegistrationAck? || e.NodeListResponse? || e.HeartbeatAck? {
        NothingOutcome(h, c, text, steps);
      } else if e.from !in conn.owned {
        q := AnsweredOutcome(h, c, text, Reply(Refusal(SenderMismatch), e.corr, conn.owned[0], false), Continue, steps);
      } else {
        r, q := OwnFrameOutcome(h, c, text, steps);
      }
    }
  }

  // ---- Bridge jobs -------------------------------------------------------------------------

  /** The job started for the command in frame `s` goes on. */
  predicate JobStep(s: Serial, step: Step) {
    (step.BridgeAnswer? || step.BridgeLookup? || step.BridgeRetry?) && step.s == s
  }

  predicate PromptJob(h: State, step: Step)
    requires Enabled(h, step)
  {
    match step
    case BridgeAnswer(s, _, r) => Prompt(h.conns[h.frames[s].conn], r)
    case BridgeRetry(s, r) => Prompt(h.conns[h.jobs[s].dest], r)
    case _ => true
  }

  predicate UndisturbedJob(h: State, s: Serial, steps: seq<Step>)
    requires Legal(h, steps)
    decreases steps
  {
    steps == [] || (
      JobStep(s, steps[0]) && PromptJob(h, steps[0]) && UndisturbedJob(Apply(h, steps[0]), s, steps[1..]))
  }

  /** The steps are a run of this job alone, to its end. */
  predicate JobFinishes(h: State, s: Serial, steps: seq<Step>) {
    && Legal(h, steps) && UndisturbedJob(h, s, steps)
    && s in Run(h, steps).jobs && Run(h, steps).jobs[s].Finished?
  }

  lemma PeelAnswer(h: State, s: Serial, steps: seq<Step>) returns (status: string, r: Outbox.PushResult)
    requires JobFinishes(h, s, steps) && s in h.jobs && h.jobs[s].Answering?
    ensures steps != [] && CanAnswer(h, s, r) && Prompt(h.conns[h.frames[s].conn], r)
    ensures var h1 := DoAnswer(h, s, status, r); JobFinishes(h1, s, steps[1..]) && Run(h, steps) == Run(h1, steps[1..])
  {
    status, r := steps[0].status, steps[0].r;
  }

  lemma PeelRelocate(h: State, s: Serial, steps: seq<Step>)
    requires JobFinishes(h, s, steps) && s in h.jobs && h.jobs[s].Retrying?
    ensures steps != []
    ensures var h1 := DoRelocate(h, s); JobFinishes(h1, s, steps[1..]) && Run(h, steps) == Run(h1, steps[1..])
  {
  }

  lemma PeelRetry(h: State, s: Serial, steps: seq<Step>) returns (r: Outbox.PushResult)
    requires JobFinishes(h, s, steps) && s in h.jobs && h.jobs[s].Redirecting?
    ensures steps != [] && CanRetry(h, s, r) && Prompt(h.conns[h.jobs[s].dest], r)
    ensures var h1 := DoRetry(h, s, r); JobFinishes(h1, s, steps[1..]) && Run(h, steps) == Run(h1, steps[1..])
  {
    r := steps[0].r;
  }

  lemma JobOver(h: State, s: Serial, steps: seq<Step>)
    requires JobFinishes(h, s, steps) && s in h.jobs && h.jobs[s].Finished?
    ensures Run(h, steps) == h
  {
  }

  lemma RetryOutcome(g: State, s: Serial, e: Envelope, steps: seq<Step>) returns (r2: Outbox.PushResult)
    requires s in g.jobs && g.jobs[s] == Retrying(e) && JobFinishes(g, s, steps)
    requires e.to in g.nodes ==> g.nodes[e.to] < |g.conns|
    ensures var g' := Run(g, steps);
            && g'.nodes == g.nodes && g'.stats == g.stats
            && if e.to !in g.nodes then g'.log == g.log && g'.conns == g.conns
               else && Prompt(g.conns[g.nodes[e.to]], r2)
                    && g'.log == g.log + Sent(g.nodes[e.to], Some(GridReply(s, e)), r2) && g'.conns == Pushed(g.conns, g.nodes[e.to], r2)
  {
    PeelRelocate(g, s, steps);
    var g1 := DoRelocate(g, s);
    r2 := Outbox.Ok;
    if e.to in g.nodes {
      r2 := PeelRetry(g1, s, steps[1..]);
      JobOver(DoRetry(g1, s, r2), s, steps[1..][1..]);
    } else {
      JobOver(g1, s, steps[1..]);
    }
  }

  lemma AnswerStep(h: State, s: Serial, status: string, r: Outbox.PushResult)
    requires CanAnswer(h, s, r)
    ensures var h1, c, e := DoAnswer(h, s, status, r), h.frames[s].conn, GridAnswer(h.frames[s].text.parsed.value, status);
            && h1.conns == Pushed(h.conns, c, r) && h1.nodes == h.nodes && h1.stats == h.stats
            && h1.log == h.log + Sent(c, Some(GridReply(s, e)), r)
            && s in h1.jobs && h1.jobs[s] == if r.Ok? then Finished(true) else Retrying(e)
  {
  }

  lemma ResponseOutcome(h: State, s: Serial, steps: seq<Step>) returns (status: string, r: Outbox.PushResult, r2: Outbox.PushResult)
    requires s in h.jobs && h.jobs[s].Answering? && JobFinishes(h, s, steps) && NodesOk(h)
    requires s < |h.frames| && h.frames[s].conn < |h.conns| && IsCommand(h.frames[s].text)
    ensures RespondedWell(h, Run(h, steps), s, h.frames[s].conn, h.frames[s].text.parsed.value, status, r, r2)
  {
    status, r := PeelAnswer(h, s, steps);
    AnswerStep(h, s, status, r);
    var h1, e := DoAnswer(h, s, status, r), GridAnswer(h.frames[s].text.parsed.value, status);
    r2 := Outbox.Ok;
    if r.Ok? {
      JobOver(h1, s, steps[1..]);
    } else {
      r2 := RetryOutcome(h1, s, e, steps[1..]);
    }
  }

  // ---- Getting done ------------------------------------------------------------------------

  /** How many steps a handler has left at most. */
  function Rank(t: Task): nat {
    match t
    case Idle => 0
    case Inserting(_, _) => 3
    case Adopting(_, _) => 2
    case Routing(_, _) => 6
    case Pushing(_, _, _) => 5
    case Pruning(_, _) => 4
    case Settling(_, _, _) => 3
    case Replying(_, _, after) => if after.SpawnAfter? then 2 else 1
    case Spawning(_) => 1
    case Fanning(_, _, targets) => 1 + |targets|
  }

  /** The result of an undisturbed push to a queue with room. */
  function Reception(conn: Conn): (r: Outbox.PushResult)
    ensures Permits(conn, r) && Prompt(conn, r)
  {
    if conn.Dead() then Outbox.Closed else Outbox.Ok
  }

  /** A handler in the middle of its work always has a next step, whatever the other sockets did. */
  lemma NoHandlerStuck(token: Option<string>, steps: seq<Step>, c: ConnId) returns (step: Step)
    requires Legal(Start(token), steps)
    requires var h := Run(Start(token), steps); c < |h.conns| && !h.conns[c].task.Idle?
    ensures var h := Run(Start(token), steps); Enabled(h, step) && OwnStep(c, step) && PromptStep(h, step)
  {
    var h := Run(Start(token), steps);
    ReachableInv(token, steps);
    step := StepOf(h, c);
  }

  lemma StepOf(h: State, c: ConnId) returns (step: Step)
    requires ConnsOk(h) && c < |h.conns| && !h.conns[c].task.Idle?
    ensures Enabled(h, step) && OwnStep(c, step) && PromptStep(h, step)
  {
    assert TaskOk(h, c);
    match h.conns[c].task
    case Inserting(_, _) => step := Insert(c);
    case Adopting(_, _) => step := Adopt(c);
    case Routing(_, _) => step := Lookup(c);
    case Pushing(_, _, dest) => step := PushDest(c, Reception(h.conns[dest]));
    case Pruning(_, _) => step := Prune(c);
    case Settling(_, _, _) => step := Settle(c);
    case Replying(_, _, _) => step := SendReply(c, Reception(h.conns[c]));
    case Spawning(_) => step := Spawn(c);
    case Fanning(_, _, targets) =>
      if targets.Keys == {} {
        assert targets == map[];
        step := FanEnd(c);
      } else {
        var id :| id in targets;
        step := Fan(c, id, Reception(h.conns[targets[id]]));
      }
  }

  lemma AfterVerdictRank(s: Serial, e: Envelope, v: Verdict)
    ensures Rank(AfterVerdict(s, e, v)) <= 2
  {
  }

  lemma FanRank(targets: map<NodeId, ConnId>, id: NodeId)
    requires id in targets
    ensures |targets - {id}| < |targets|
  {
    assert (targets - {id}).Keys == targets.Keys - {id};
    assert |targets - {id}| == |(targets - {id}).Keys| && |targets| == |targets.Keys|;
  }

  lemma RouteDescends(h: State, c: ConnId, step: Step)
    requires c < |h.conns| && Enabled(h, step) && OwnStep(c, step)
    requires step.Lookup? || step.PushDest? || step.Prune?
    ensures Rank(Apply(h, step).conns[c].task) < Rank(h.conns[c].task)
  {
    match step
    case Lookup(_) => assert DoLookup(h, c).conns[c].task.Pushing? || DoLookup(h, c).conns[c].task.Settling?;
    case PushDest(_, r) => assert DoPush(h, c, r).conns[c].task.Pruning? || DoPush(h, c, r).conns[c].task.Settling?;
    case Prune(_) => assert DoPrune(h, c).conns[c].task.Settling?;
  }

  lemma SettleDescends(h: State, c: ConnId)
    requires CanSettle(h, c)
    ensures Rank(DoSettle(h, c).conns[c].task) < Rank(h.conns[c].task)
  {
    var t := h.conns[c].task;
    AfterVerdictRank(t.serial, t.text.parsed.value, t.verdict);
  }

  lemma ReplyDescends(h: State, c: ConnId, step: Step)
    requires c < |h.conns| && Enabled(h, step) && OwnStep(c, step)
    requires step.Insert? || step.Adopt? || step.SendReply? || step.Spawn? || step.FanEnd?
    ensures Rank(Apply(h, step).conns[c].task) < Rank(h.conns[c].task)
  {
    match step
    case Insert(_) => InsertDescends(h, c);
    case Adopt(_) => assert DoAdopt(h, c).conns[c].task.Replying? && DoAdopt(h, c).conns[c].task.after == Continue;
    case SendReply(_, r) => ReplySent(h, c, r);
    case Spawn(_) => assert DoSpawn(h, c).conns[c].task.Idle?;
    case FanEnd(_) => assert SetTask(h, c, Idle).conns[c].task.Idle?;
  }

  lemma InsertDescends(h: State, c: ConnId)
    requires CanInsert(h, c)
    ensures Rank(DoInsert(h, c).conns[c].task) < Rank(h.conns[c].task)
  {
  }

  lemma ReplySent(h: State, c: ConnId, r: Outbox.PushResult)
    requires CanReply(h, c, r)
    ensures Rank(DoReply(h, c, r).conns[c].task) < Rank(h.conns[c].task)
  {
  }

  lemma FanDescends(h: State, c: ConnId, id: NodeId, r: Outbox.PushResult)
    requires CanFan(h, c, id, r)
    ensures Rank(DoFan(h, c, id, r).conns[c].task) < Rank(h.conns[c].task)
  {
    FanRank(h.conns[c].task.targets, id);
  }

  lemma OwnStepDescends(h: State, c: ConnId, step: Step)
    requires c < |h.conns| && Enabled(h, step) && OwnStep(c, step)
    ensures Rank(Apply(h, step).conns[c].task) < Rank(h.conns[c].task)
  {
    if step.Settle? {
      SettleDescends(h, c);
    } else if step.Fan? {
      FanDescends(h, c, step.id, step.r);
    } else if step.Lookup? || step.PushDest? || step.Prune? {
      RouteDescends(h, c, step);
    } else {
      ReplyDescends(h, c, step);
    }
  }

  /** A handler takes a bounded number of steps for a frame: six, or one for each target of a broadcast and one more. */
  lemma {:induction false} HandlerRunIsShort(h: State, c: ConnId, steps: seq<Step>)
    requires c < |h.conns| && Legal(h, steps) && Undisturbed(h, c, steps)
    ensures c < |Run(h, steps).conns|
    ensures |steps| + Rank(Run(h, steps).conns[c].task) <= Rank(h.conns[c].task)
    decreases steps
  {
    if steps != [] {
      StepEffect(h, steps[0]);
      OwnStepDescends(h, c, steps[0]);
      HandlerRunIsShort(Apply(h, steps[0]), c, steps[1..]);
    }
  }
}
