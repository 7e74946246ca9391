/**
 The watchers of one consumer (scripts/agent_bridge.py): any number of processes scan for events,
 claim each with an exclusive file creation, deliver what they claimed, and prune old claim files.
 A step is one file-system operation; times are whole ticks of one clock that never goes back.
 */
module Watch {

  type Key = string

  /** `STATE_RETENTION_SECS`. */
  const RETENTION: nat := 30 * 24 * 3600

  datatype Stage =
    | Idle
    | Pruning(cutoff: int, todo: set<Key>)                    // listed claim files still to test
    | Deleting(cutoff: int, key: Key, todo: set<Key>)         // this one was found stale; remove comes next
    | Scanning(events: seq<Key>)                              // events found unclaimed so far
    | Claiming(events: seq<Key>, i: nat)                      // next event to claim
    | Delivering(events: seq<Key>, i: nat, grant: nat)        // claim `grant` won; delivery comes next

  /** A claim file was created: this watcher, and nobody else, may deliver. */
  datatype Grant = Grant(key: Key, at: nat)

  datatype Delivery = Delivery(key: Key, grant: nat)

  /** `claims` maps a key to its claim file's modification time; `grants` and `deliveries` are history. */
  datatype State = State(now: nat, claims: map<Key, nat>, watchers: seq<Stage>, grants: seq<Grant>, deliveries: seq<Delivery>)

  datatype Step =
    | Tick(d: nat)
    | NewWatcher
    | Quit(w: nat)                       // a pass ends with an error, or the process ends
    | StartPrune(w: nat)
    | PruneTest(w: nat, key: Key)
    | PruneDelete(w: nat)
    | StartScan(w: nat)
    | Look(w: nat, key: Key)
    | ClaimQuietly(w: nat, key: Key)     // an incident of this machine, or one that predates the first run
    | EndScan(w: nat)
    | Claim(w: nat)
    | Deliver(w: nat)

  function Start(): State {
    State(0, map[], [], [], [])
  }

  predicate Enabled(s: State, step: Step) {
    match step
    case Tick(_) => true
    case NewWatcher => true
    case Quit(w) => w < |s.watchers|
    case StartPrune(w) => w < |s.watchers| && s.watchers[w].Idle?
    case PruneTest(w, key) => w < |s.watchers| && s.watchers[w].Pruning? && key in s.watchers[w].todo
    case PruneDelete(w) => w < |s.watchers| && s.watchers[w].Deleting?
    case StartScan(w) => w < |s.watchers| && s.watchers[w].Idle?
    case Look(w, _) => w < |s.watchers| && s.watchers[w].Scanning?
    case ClaimQuietly(w, _) => w < |s.watchers| && s.watchers[w].Scanning?
    case EndScan(w) => w < |s.watchers| && s.watchers[w].Scanning?
    case Claim(w) => w < |s.watchers| && s.watchers[w].Claiming? && s.watchers[w].i < |s.watchers[w].events|
    case Deliver(w) => w < |s.watchers| && s.watchers[w].Delivering? && s.watchers[w].i < |s.watchers[w].events|
  }

  function SetStage(s: State, w: nat, stage: Stage): State
    requires w < |s.watchers|
  {
    s.(watchers := s.watchers[w := stage])
  }

  /** `claim_event`: an exclusive create that fails if the file exists. */
  function TryClaim(s: State, key: Key): State {
    if key in s.claims then s
    else s.(claims := s.claims[key := s.now], grants := s.grants + [Grant(key, s.now)])
  }

  function Apply(s: State, step: Step): State
    requires Enabled(s, step)
  {
    match step
    case Tick(d) => s.(now := s.now + d)
    case NewWatcher => s.(watchers := s.watchers + [Idle])
    case Quit(w) => SetStage(s, w, Idle)
    case StartPrune(w) => SetStage(s, w, Pruning(s.now - RETENTION, s.claims.Keys))
    case PruneTest(w, key) =>
      var p := s.watchers[w];
      if key in s.claims && s.claims[key] < p.cutoff then SetStage(s, w, Deleting(p.cutoff, key, p.todo - {key}))
      else SetStage(s, w, Pruning(p.cutoff, p.todo - {key}))
    case PruneDelete(w) =>
      var p := s.watchers[w];
      SetStage(s, w, Pruning(p.cutoff, p.todo)).(claims := s.claims - {p.key})
    case StartScan(w) => SetStage(s, w, Scanning([]))
    case Look(w, key) =>
      if key in s.claims then s else SetStage(s, w, Scanning(s.watchers[w].events + [key]))
    case ClaimQuietly(w, key) => TryClaim(s, key)
    case EndScan(w) => SetStage(s, w, Claiming(s.watchers[w].events, 0))
    case Claim(w) =>
      var p := s.watchers[w];
      SetStage(TryClaim(s, p.events[p.i]), w,
               if p.events[p.i] in s.claims then Claiming(p.events, p.i + 1) else Delivering(p.events, p.i, |s.grants|))
    case Deliver(w) =>
      var p := s.watchers[w];
      SetStage(s, w, Claiming(p.events, p.i + 1)).(deliveries := s.deliveries + [Delivery(p.events[p.i], p.grant)])
  }

  predicate Legal(s: State, steps: seq<Step>)
    decreases steps
  {
    steps == [] || (Enabled(s, steps[0]) && Legal(Apply(s, steps[0]), steps[1..]))
  }

  function Run(s: State, steps: seq<Step>): State
    requires Legal(s, steps)
    decreases steps
  {
    if steps == [] then s else Run(Apply(s, steps[0]), steps[1..])
  }
}
