/** How often an event can be delivered, and exactly when pruning is harmless. */
module WatchProofs {
  import opened Watch

  // ---- What a run may promise --------------------------------------------------------------

  /** Two deliveries of one event carry claims more than the retention period, thirty days, apart. */
  ghost predicate Spaced(s: State) {
    forall i, j ::
      0 <= i < |s.deliveries| && 0 <= j < |s.deliveries| && i != j && s.deliveries[i].key == s.deliveries[j].key
      && s.deliveries[i].grant < |s.grants| && s.deliveries[j].grant < |s.grants| ==>
        || s.grants[s.deliveries[i].grant].at + 2_592_000 < s.grants[s.deliveries[j].grant].at
        || s.grants[s.deliveries[j].grant].at + 2_592_000 < s.grants[s.deliveries[i].grant].at
  }

  /** Claim `g` was delivered, or a watcher that won it is about to deliver. */
  ghost predicate Usable(s: State, g: nat) {
    || (exists i :: 0 <= i < |s.deliveries| && s.deliveries[i].grant == g)
    || (exists w :: 0 <= w < |s.watchers| && Delivers(s, w, g))
  }

  predicate Delivers(s: State, w: nat, g: nat)
    requires w < |s.watchers|
  {
    s.watchers[w].Delivering? && s.watchers[w].grant == g
  }

  /** What is removed, if anything, is a claim older than the retention period at this very moment. */
  predicate Timely(s: State, step: Step)
    requires Enabled(s, step)
  {
    step.PruneDelete? ==>
      var key := s.watchers[step.w].key; key in s.claims ==> s.claims[key] + RETENTION < s.now
  }

  /** The claim on disk is, or will be, one of a delivery. */
  ghost predicate InUse(s: State, key: Key) {
    key in s.claims && exists g :: 0 <= g < |s.grants| && Usable(s, g) && s.grants[g] == Grant(key, s.claims[key])
  }

  /** A removal is harmless if the claim is old enough, or if its watcher quit before delivering. */
  ghost predicate Harmless(s: State, step: Step)
    requires Enabled(s, step)
  {
    Timely(s, step) || !InUse(s, s.watchers[step.w].key)
  }

  ghost predicate HarmlessRun(s: State, steps: seq<Step>)
    requires Legal(s, steps)
    decreases steps
  {
    steps == [] || (Harmless(s, steps[0]) && HarmlessRun(Apply(s, steps[0]), steps[1..]))
  }

  predicate TimelyRun(s: State, steps: seq<Step>)
    requires Legal(s, steps)
    decreases steps
  {
    steps == [] || (Timely(s, steps[0]) && TimelyRun(Apply(s, steps[0]), steps[1..]))
  }

  lemma {:induction false} TimelyIsHarmless(s: State, steps: seq<Step>)
    requires Legal(s, steps) && TimelyRun(s, steps)
    ensures HarmlessRun(s, steps)
    decreases steps
  {
    if steps != [] {
      TimelyIsHarmless(Apply(s, steps[0]), steps[1..]);
    }
  }

  // ---- The invariant -----------------------------------------------------------------------

  /** A past claim is the one on disk, or is more than the retention period behind. */
  predicate Past(s: State, g: Grant) {
    if g.key in s.claims then g.at == s.claims[g.key] || g.at + RETENTION < s.claims[g.key]
    else g.at + RETENTION < s.now
  }

  /** Claims that lead to deliveries are spaced. */
  ghost predicate GrantsOk(s: State) {
    && (forall i :: 0 <= i < |s.grants| && Usable(s, i) ==> Past(s, s.grants[i]))
    && (forall key :: key in s.claims ==> s.claims[key] <= s.now)
    && (forall i, j :: 0 <= i < j < |s.grants| && Usable(s, i) && Usable(s, j) && s.grants[i].key == s.grants[j].key ==>
          s.grants[i].at + RETENTION < s.grants[j].at)
  }

  predicate StageOk(s: State, w: nat)
    requires w < |s.watchers|
  {
    match s.watchers[w]
    case Delivering(events, i, g) => i < |events| && g < |s.grants| && s.grants[g].key == events[i]
    case Pruning(cutoff, _) => cutoff + RETENTION <= s.now
    case Deleting(cutoff, _, _) => cutoff + RETENTION <= s.now
    case _ => true
  }

  /** Each claim is used at most once: by one delivery, or by one watcher about to deliver. */
  ghost predicate UsedOnce(s: State) {
    && (forall i :: 0 <= i < |s.deliveries| ==>
          s.deliveries[i].grant < |s.grants| && s.grants[s.deliveries[i].grant].key == s.deliveries[i].key)
    && (forall i, j :: 0 <= i < j < |s.deliveries| ==> s.deliveries[i].grant != s.deliveries[j].grant)
    && (forall i, w :: 0 <= i < |s.deliveries| && 0 <= w < |s.watchers| ==> !Delivers(s, w, s.deliveries[i].grant))
    && (forall v, w :: 0 <= v < |s.watchers| && 0 <= w < |s.watchers| && v != w && s.watchers[v].Delivering? ==>
          !Delivers(s, w, s.watchers[v].grant))
  }

  ghost predicate Inv(s: State) {
    && GrantsOk(s) && UsedOnce(s)
    && (forall w :: 0 <= w < |s.watchers| ==> StageOk(s, w))
  }

  /** A claim becomes usable only when a watcher wins it. */
  lemma UsableBefore(s: State, step: Step, g: nat)
    requires Enabled(s, step) && g < |s.grants| && Usable(Apply(s, step), g)
    ensures Usable(s, g)
  {
    var s' := Apply(s, step);
    if i :| 0 <= i < |s'.deliveries| && s'.deliveries[i].grant == g {
      if i < |s.deliveries| {
        assert s.deliveries[i].grant == g;
      } else {
        assert Delivers(s, step.w, g);
      }
    } else {
      var w :| 0 <= w < |s'.watchers| && Delivers(s', w, g);
      assert w < |s.watchers| && Delivers(s, w, g);
    }
  }

  /** A step that wins no claim for a delivery and removes none in use. */
  lemma OtherKeepsGrants(s: State, step: Step)
    requires GrantsOk(s) && Enabled(s, step) && !step.Claim? && !step.ClaimQuietly? && !step.PruneDelete?
    ensures GrantsOk(Apply(s, step))
  {
    var s' := Apply(s, step);
    forall i | 0 <= i < |s'.grants| && Usable(s', i) ensures Past(s', s'.grants[i]) {
      UsableBefore(s, step, i);
      assert Past(s, s.grants[i]);
    }
    forall i, j | 0 <= i < j < |s'.grants| && Usable(s', i) && Usable(s', j) && s'.grants[i].key == s'.grants[j].key
      ensures s'.grants[i].at + RETENTION < s'.grants[j].at
    {
      UsableBefore(s, step, i);
      UsableBefore(s, step, j);
    }
  }

  lemma DeleteKeepsGrants(s: State, w: nat)
    requires GrantsOk(s) && Enabled(s, PruneDelete(w)) && Harmless(s, PruneDelete(w))
    ensures GrantsOk(Apply(s, PruneDelete(w)))
  {
    var s' := Apply(s, PruneDelete(w));
    forall i | 0 <= i < |s'.grants| && Usable(s', i) ensures Past(s', s'.grants[i]) {
      UsableBefore(s, PruneDelete(w), i);
      assert Past(s, s.grants[i]);
      if s.grants[i].key == s.watchers[w].key && s.grants[i].key in s.claims && s.grants[i].at == s.claims[s.grants[i].key] {
        assert InUse(s, s.watchers[w].key);
      }
    }
    forall i, j | 0 <= i < j < |s'.grants| && Usable(s', i) && Usable(s', j) && s'.grants[i].key == s'.grants[j].key
      ensures s'.grants[i].at + RETENTION < s'.grants[j].at
    {
      UsableBefore(s, PruneDelete(w), i);
      UsableBefore(s, PruneDelete(w), j);
    }
  }

  /** A claim of an unclaimed key: whoever used the key before is long past. */
  lemma ClaimKeepsGrants(s: State, step: Step, key: Key)
    requires GrantsOk(s) && Enabled(s, step) && (step.Claim? || step.ClaimQuietly?)
    requires key == if step.Claim? then s.watchers[step.w].events[s.watchers[step.w].i] else step.key
    ensures GrantsOk(Apply(s, step))
  {
    var s' := Apply(s, step);
    assert s'.claims == TryClaim(s, key).claims && s'.grants == TryClaim(s, key).grants && s'.now == s.now;
    forall i | 0 <= i < |s'.grants| && Usable(s', i) ensures Past(s', s'.grants[i]) {
      if i < |s.grants| {
        UsableBefore(s, step, i);
        assert Past(s, s.grants[i]);
      }
    }
    forall i, j | 0 <= i < j < |s'.grants| && Usable(s', i) && Usable(s', j) && s'.grants[i].key == s'.grants[j].key
      ensures s'.grants[i].at + RETENTION < s'.grants[j].at
    {
      UsableBefore(s, step, i);
      assert Past(s, s.grants[i]);
      if j < |s.grants| {
        UsableBefore(s, step, j);
      }
    }
  }

  lemma StepKeepsGrants(s: State, step: Step)
    requires GrantsOk(s) && Enabled(s, step) && Harmless(s, step)
    ensures GrantsOk(Apply(s, step))
  {
    match step
    case PruneDelete(w) => DeleteKeepsGrants(s, w);
    case ClaimQuietly(w, key) => ClaimKeepsGrants(s, step, key);
    case Claim(w) => ClaimKeepsGrants(s, step, s.watchers[w].events[s.watchers[w].i]);
    case _ => OtherKeepsGrants(s, step);
  }

  lemma StepKeepsStages(s: State, step: Step)
    requires Inv(s) && Enabled(s, step)
    ensures var s' := Apply(s, step); forall w :: 0 <= w < |s'.watchers| ==> StageOk(s', w)
  {
    var s' := Apply(s, step);
    forall w | 0 <= w < |s'.watchers|
      ensures StageOk(s', w)
    {
      if w < |s.watchers| {
        assert StageOk(s, w);
      }
    }
  }

  lemma StepKeepsUse(s: State, step: Step)
    requires Inv(s) && Enabled(s, step)
    ensures UsedOnce(Apply(s, step))
  {
    match step
    case Claim(w) => ClaimKeepsUse(s, w);
    case Deliver(w) => DeliverKeepsUse(s, w);
    case _ => OtherKeepsUse(s, step);
  }

  /** A new claim has a number of its own. */
  lemma ClaimKeepsUse(s: State, w: nat)
    requires Inv(s) && Enabled(s, Claim(w))
    ensures UsedOnce(Apply(s, Claim(w)))
  {
    var s' := Apply(s, Claim(w));
    forall i, v | 0 <= i < |s'.deliveries| && 0 <= v < |s'.watchers|
      ensures !Delivers(s', v, s'.deliveries[i].grant)
    {
      assert !Delivers(s, v, s.deliveries[i].grant);
    }
    forall u, v | 0 <= u < |s'.watchers| && 0 <= v < |s'.watchers| && u != v && s'.watchers[u].Delivering?
      ensures !Delivers(s', v, s'.watchers[u].grant)
    {
      assert StageOk(s, u) && StageOk(s, v);
      if u != w && v != w {
        assert !Delivers(s, v, s.watchers[u].grant);
      }
    }
  }

  /** The claim passes from the watcher to its delivery. */
  lemma DeliverKeepsUse(s: State, w: nat)
    requires Inv(s) && Enabled(s, Deliver(w))
    ensures UsedOnce(Apply(s, Deliver(w)))
  {
    var s' := Apply(s, Deliver(w));
    var g := s.watchers[w].grant;
    assert StageOk(s, w);
    forall i, j | 0 <= i < j < |s'.deliveries|
      ensures s'.deliveries[i].grant != s'.deliveries[j].grant
    {
      if j == |s.deliveries| {
        assert !Delivers(s, w, s.deliveries[i].grant);
      }
    }
    forall i, v | 0 <= i < |s'.deliveries| && 0 <= v < |s'.watchers|
      ensures !Delivers(s', v, s'.deliveries[i].grant)
    {
      if v != w {
        assert i < |s.deliveries| ==> !Delivers(s, v, s.deliveries[i].grant);
        assert !Delivers(s, v, s.watchers[w].grant);
      }
    }
    forall u, v | 0 <= u < |s'.watchers| && 0 <= v < |s'.watchers| && u != v && s'.watchers[u].Delivering?
      ensures !Delivers(s', v, s'.watchers[u].grant)
    {
      if v != w {
        assert !Delivers(s, v, s.watchers[u].grant);
      }
    }
  }

  lemma OtherKeepsUse(s: State, step: Step)
    requires Inv(s) && Enabled(s, step) && !step.Claim? && !step.Deliver?
    ensures UsedOnce(Apply(s, step))
  {
    var s' := Apply(s, step);
    forall i, v | 0 <= i < |s'.deliveries| && 0 <= v < |s'.watchers|
      ensures !Delivers(s', v, s'.deliveries[i].grant)
    {
      assert v < |s.watchers| ==> !Delivers(s, v, s.deliveries[i].grant);
    }
    forall u, v | 0 <= u < |s'.watchers| && 0 <= v < |s'.watchers| && u != v && s'.watchers[u].Delivering?
      ensures !Delivers(s', v, s'.watchers[u].grant)
    {
      assert v < |s.watchers| ==> !Delivers(s, v, s.watchers[u].grant);
    }
  }

  lemma StepKeepsInv(s: State, step: Step)
    requires Inv(s) && Enabled(s, step) && Harmless(s, step)
    ensures Inv(Apply(s, step))
  {
    StepKeepsGrants(s, step);
    StepKeepsStages(s, step);
    StepKeepsUse(s, step);
  }

  lemma {:induction false} RunKeepsInv(s: State, steps: seq<Step>)
    requires Inv(s) && Legal(s, steps) && HarmlessRun(s, steps)
    ensures Inv(Run(s, steps))
    decreases steps
  {
    if steps != [] {
      StepKeepsInv(s, steps[0]);
      RunKeepsInv(Apply(s, steps[0]), steps[1..]);
      assert Run(s, steps) == Run(Apply(s, steps[0]), steps[1..]);
    }
  }

  lemma InvIsSpaced(s: State)
    requires Inv(s)
    ensures Spaced(s)
  {
    forall i, j | 0 <= i < |s.deliveries| && 0 <= j < |s.deliveries| && i != j && s.deliveries[i].key == s.deliveries[j].key
      ensures s.grants[s.deliveries[i].grant].at + RETENTION < s.grants[s.deliveries[j].grant].at
           || s.grants[s.deliveries[j].grant].at + RETENTION < s.grants[s.deliveries[i].grant].at
    {
      assert s.deliveries[i].grant != s.deliveries[j].grant;
      assert Usable(s, s.deliveries[i].grant) && Usable(s, s.deliveries[j].grant);
    }
  }

  // ---- Theorems ----------------------------------------------------------------------------

  lemma StartInv()
    ensures Inv(Start())
  {
  }

  /** If every removal is timely, or hits a claim that leads to no delivery, deliveries of one event are spaced. */
  lemma HarmlessRunsAreSpaced(steps: seq<Step>)
    requires Legal(Start(), steps) && (TimelyRun(Start(), steps) || HarmlessRun(Start(), steps))
    ensures Spaced(Run(Start(), steps))
  {
    StartInv();
    if TimelyRun(Start(), steps) {
      TimelyIsHarmless(Start(), steps);
    }
    RunKeepsInv(Start(), steps);
    InvIsSpaced(Run(Start(), steps));
  }

  /** A test that is followed at once by its removal makes the removal timely. */
  lemma AtomicPruneIsTimely(s: State, w: nat, key: Key)
    requires Inv(s) && Enabled(s, PruneTest(w, key)) && Apply(s, PruneTest(w, key)).watchers[w].Deleting?
    ensures var s' := Apply(s, PruneTest(w, key)); Enabled(s', PruneDelete(w)) && Timely(s', PruneDelete(w))
  {
    assert StageOk(s, w);
  }

  // ---- No pruning --------------------------------------------------------------------------

  /** No claim file was ever removed: every claim is still on disk, so no key was claimed twice. */
  ghost predicate Kept(s: State) {
    && (forall i :: 0 <= i < |s.grants| ==> s.grants[i].key in s.claims)
    && (forall i, j :: 0 <= i < j < |s.grants| ==> s.grants[i].key != s.grants[j].key)
  }

  predicate NoRemoval(steps: seq<Step>) {
    forall i :: 0 <= i < |steps| ==> !steps[i].PruneDelete?
  }

  lemma StepKeepsAll(s: State, step: Step)
    requires Kept(s) && Enabled(s, step) && !step.PruneDelete?
    ensures Kept(Apply(s, step))
  {
  }

  lemma {:induction false} RunKeepsAll(s: State, steps: seq<Step>)
    requires Kept(s) && Inv(s) && Legal(s, steps) && NoRemoval(steps)
    ensures Kept(Run(s, steps)) && Inv(Run(s, steps))
    decreases steps
  {
    if steps != [] {
      StepKeepsAll(s, steps[0]);
      StepKeepsInv(s, steps[0]);
      RunKeepsAll(Apply(s, steps[0]), steps[1..]);
      assert Run(s, steps) == Run(Apply(s, steps[0]), steps[1..]);
    }
  }

  /** Without removals, no event is ever delivered twice, by any number of watchers. */
  lemma DeliveredAtMostOnce(steps: seq<Step>)
    requires Legal(Start(), steps) && NoRemoval(steps)
    ensures var s := Run(Start(), steps);
      forall i, j :: 0 <= i < j < |s.deliveries| ==> s.deliveries[i].key != s.deliveries[j].key
  {
    var s := Run(Start(), steps);
    StartInv();
    RunKeepsAll(Start(), steps);
    forall i, j | 0 <= i < j < |s.deliveries|
      ensures s.deliveries[i].key != s.deliveries[j].key
    {
      assert s.deliveries[i].grant != s.deliveries[j].grant;
    }
  }

  // ---- What a pass leaves behind -------------------------------------------------------------

  ghost predicate EverClaimed(s: State, key: Key) {
    exists g :: 0 <= g < |s.grants| && s.grants[g].key == key
  }

  /** The events of a pass that are behind it have been claimed. */
  ghost predicate Handled(s: State, p: Stage) {
    match p
    case Claiming(events, i) => i <= |events| && forall j :: 0 <= j < i ==> EverClaimed(s, events[j])
    case Delivering(events, i, _) => i < |events| && forall j :: 0 <= j <= i ==> EverClaimed(s, events[j])
    case _ => true
  }

  ghost predicate PassesOk(s: State) {
    && (forall key :: key in s.claims ==> EverClaimed(s, key))
    && (forall w :: 0 <= w < |s.watchers| ==> Handled(s, s.watchers[w]))
  }

  lemma StepKeepsPasses(s: State, step: Step)
    requires PassesOk(s) && Enabled(s, step)
    ensures PassesOk(Apply(s, step))
  {
    var s' := Apply(s, step);
    forall key | EverClaimed(s, key)
      ensures EverClaimed(s', key)
    {
      var g :| 0 <= g < |s.grants| && s.grants[g].key == key;
      assert s'.grants[g] == s.grants[g];
    }
    if |s'.grants| > |s.grants| {
      assert EverClaimed(s', s'.grants[|s.grants|].key);
    }
    forall w | 0 <= w < |s'.watchers|
      ensures Handled(s', s'.watchers[w])
    {
      if w < |s.watchers| {
        assert Handled(s, s.watchers[w]);
      }
    }
  }

  lemma {:induction false} RunKeepsPasses(s: State, steps: seq<Step>)
    requires PassesOk(s) && Legal(s, steps)
    ensures PassesOk(Run(s, steps))
    decreases steps
  {
    if steps != [] {
      StepKeepsPasses(s, steps[0]);
      RunKeepsPasses(Apply(s, steps[0]), steps[1..]);
      assert Run(s, steps) == Run(Apply(s, steps[0]), steps[1..]);
    }
  }

  /** Some step of the run removes the claim file of `key`. */
  predicate Removes(s: State, steps: seq<Step>, key: Key)
    requires Legal(s, steps)
    decreases steps
  {
    steps != [] && (
      || (steps[0].PruneDelete? && s.watchers[steps[0].w].key == key && key in s.claims)
      || Removes(Apply(s, steps[0]), steps[1..], key))
  }

  lemma {:induction false} StaysUntilRemoved(s: State, steps: seq<Step>, key: Key)
    requires Legal(s, steps) && (EverClaimed(s, key) ==> key in s.claims)
    ensures EverClaimed(Run(s, steps), key) ==> key in Run(s, steps).claims || Removes(s, steps, key)
    decreases steps
  {
    if steps != [] {
      var s1 := Apply(s, steps[0]);
      if !(steps[0].PruneDelete? && s.watchers[steps[0].w].key == key && key in s.claims) {
        ClaimedOnce(s, steps[0], key);
        StaysUntilRemoved(s1, steps[1..], key);
      }
    }
  }

  lemma ClaimedOnce(s: State, step: Step, key: Key)
    requires Enabled(s, step) && (EverClaimed(s, key) ==> key in s.claims)
    requires !(step.PruneDelete? && s.watchers[step.w].key == key && key in s.claims)
    ensures EverClaimed(Apply(s, step), key) ==> key in Apply(s, step).claims
  {
    var s' := Apply(s, step);
    if g :| 0 <= g < |s'.grants| && s'.grants[g].key == key {
      if g < |s.grants| {
        assert s.grants[g].key == key;
      }
    }
  }

  /** Every claim file was granted, and a claim whose file is gone has expired. */
  ghost predicate Expiring(s: State, key: Key) {
    && (key in s.claims ==> exists g :: 0 <= g < |s.grants| && s.grants[g] == Grant(key, s.claims[key]))
    && (EverClaimed(s, key) && key !in s.claims ==> Expired(s, key))
  }

  ghost predicate Expired(s: State, key: Key) {
    exists g :: 0 <= g < |s.grants| && s.grants[g].key == key && s.grants[g].at + RETENTION < s.now
  }

  lemma StepKeepsExpiring(s: State, step: Step, key: Key)
    requires Expiring(s, key) && Enabled(s, step) && Timely(s, step)
    ensures Expiring(Apply(s, step), key)
  {
    var s' := Apply(s, step);
    if key in s.claims {
      var g :| 0 <= g < |s.grants| && s.grants[g] == Grant(key, s.claims[key]);
      assert s'.grants[g] == s.grants[g];
    } else if EverClaimed(s, key) {
      var g :| 0 <= g < |s.grants| && s.grants[g].key == key && s.grants[g].at + RETENTION < s.now;
      assert s'.grants[g] == s.grants[g];
    }
    if key in s'.claims && key !in s.claims {
      assert s'.grants[|s.grants|] == Grant(key, s'.claims[key]);
    }
    if EverClaimed(s', key) && !EverClaimed(s, key) {
      var g :| 0 <= g < |s'.grants| && s'.grants[g].key == key;
      assert g == |s.grants|;
    }
  }

  lemma {:induction false} RunKeepsExpiring(s: State, steps: seq<Step>, key: Key)
    requires Expiring(s, key) && Legal(s, steps) && TimelyRun(s, steps)
    ensures Expiring(Run(s, steps), key)
    decreases steps
  {
    if steps != [] {
      StepKeepsExpiring(s, steps[0], key);
      RunKeepsExpiring(Apply(s, steps[0]), steps[1..], key);
    }
  }

  /**
   When a pass has gone through all it scanned, each of those events has been claimed, and its claim
   is on disk unless some step of the run removed it. With timely removals it is on disk or expired.
   */
  lemma PassClaimsItsEvents(steps: seq<Step>, w: nat, j: nat)
    requires Legal(Start(), steps)
    requires var s := Run(Start(), steps);
      && w < |s.watchers| && s.watchers[w].Claiming? && s.watchers[w].i == |s.watchers[w].events|
      && j < |s.watchers[w].events|
    ensures var s := Run(Start(), steps);
      var key := s.watchers[w].events[j];
      && EverClaimed(s, key) && (key in s.claims || Removes(Start(), steps, key))
      && (TimelyRun(Start(), steps) ==> key in s.claims || Expired(s, key))
  {
    var s := Run(Start(), steps);
    RunKeepsPasses(Start(), steps);
    assert Handled(s, s.watchers[w]);
    StaysUntilRemoved(Start(), steps, s.watchers[w].events[j]);
    if TimelyRun(Start(), steps) {
      RunKeepsExpiring(Start(), steps, s.watchers[w].events[j]);
    }
  }

  // ---- A won claim is delivered ------------------------------------------------------------

  /** The watcher is still about to deliver what it won, or has delivered it. */
  ghost predicate OnItsWay(s: State, w: nat, key: Key, g: nat) {
    || (w < |s.watchers| && s.watchers[w].Delivering? && s.watchers[w].grant == g
        && s.watchers[w].i < |s.watchers[w].events| && s.watchers[w].events[s.watchers[w].i] == key)
    || Delivery(key, g) in s.deliveries
  }

  lemma OnItsWayStep(s: State, step: Step, w: nat, key: Key, g: nat)
    requires Enabled(s, step) && OnItsWay(s, w, key, g) && step != Quit(w)
    ensures OnItsWay(Apply(s, step), w, key, g)
  {
    var s' := Apply(s, step);
    if Delivery(key, g) in s.deliveries {
      var i :| 0 <= i < |s.deliveries| && s.deliveries[i] == Delivery(key, g);
      assert s'.deliveries[i] == Delivery(key, g);
    } else if step == Deliver(w) {
      assert s'.deliveries[|s.deliveries|] == Delivery(key, g);
    }
  }

  lemma {:induction false} OnItsWayRun(s: State, steps: seq<Step>, w: nat, key: Key, g: nat)
    requires Legal(s, steps) && OnItsWay(s, w, key, g) && forall k :: 0 <= k < |steps| ==> steps[k] != Quit(w)
    ensures OnItsWay(Run(s, steps), w, key, g)
    decreases steps
  {
    if steps != [] {
      OnItsWayStep(s, steps[0], w, key, g);
      forall k | 0 <= k < |steps[1..]| ensures steps[1..][k] != Quit(w) {
        assert steps[1..][k] == steps[k + 1];
      }
      OnItsWayRun(Apply(s, steps[0]), steps[1..], w, key, g);
    }
  }

  /**
   Whatever the others do: a watcher that claims an unclaimed event, and neither fails nor ends, has
   delivered it as soon as it is done with it.
   */
  lemma WonClaimIsDelivered(s: State, w: nat, steps: seq<Step>)
    requires Enabled(s, Claim(w)) && s.watchers[w].events[s.watchers[w].i] !in s.claims
    requires Legal(Apply(s, Claim(w)), steps) && forall k :: 0 <= k < |steps| ==> steps[k] != Quit(w)
    requires var s' := Run(Apply(s, Claim(w)), steps); w < |s'.watchers| && !Delivers(s', w, |s.grants|)
    ensures Delivery(s.watchers[w].events[s.watchers[w].i], |s.grants|) in Run(Apply(s, Claim(w)), steps).deliveries
  {
    OnItsWayRun(Apply(s, Claim(w)), steps, w, s.watchers[w].events[s.watchers[w].i], |s.grants|);
  }

  // ---- What a scan has seen ----------------------------------------------------------------

  /** The watcher has the event on the list of this pass. */
  predicate OnList(stage: Stage, key: Key) {
    (stage.Scanning? || stage.Claiming? || stage.Delivering?) && key in stage.events
  }

  lemma LookSees(s: State, w: nat, key: Key)
    requires PassesOk(s) && Enabled(s, Look(w, key))
    ensures var s' := Apply(s, Look(w, key)); EverClaimed(s', key) || OnList(s'.watchers[w], key)
  {
    if key in s.claims {
      assert EverClaimed(s, key);
    }
  }

  lemma StaysOnList(s: State, step: Step, w: nat, key: Key)
    requires Enabled(s, step) && step != Quit(w) && w < |s.watchers| && (EverClaimed(s, key) || OnList(s.watchers[w], key))
    ensures var s' := Apply(s, step); w < |s'.watchers| && (EverClaimed(s', key) || OnList(s'.watchers[w], key))
  {
    var s' := Apply(s, step);
    if EverClaimed(s, key) {
      var g :| 0 <= g < |s.grants| && s.grants[g].key == key;
      assert s'.grants[g].key == key;
    }
  }

  lemma {:induction false} StaysOnListRun(s: State, steps: seq<Step>, w: nat, key: Key)
    requires Legal(s, steps) && (forall k :: 0 <= k < |steps| ==> steps[k] != Quit(w))
    requires w < |s.watchers| && (EverClaimed(s, key) || OnList(s.watchers[w], key))
    ensures var s' := Run(s, steps); w < |s'.watchers| && (EverClaimed(s', key) || OnList(s'.watchers[w], key))
    decreases steps
  {
    if steps != [] {
      StaysOnList(s, steps[0], w, key);
      forall k | 0 <= k < |steps[1..]| ensures steps[1..][k] != Quit(w) {
        assert steps[1..][k] == steps[k + 1];
      }
      StaysOnListRun(Apply(s, steps[0]), steps[1..], w, key);
    }
  }

  /**
   In every run, an event a scan looks at is claimed, by this watcher or another, when the pass has
   gone through its list, unless the watcher ended before.
   */
  lemma SeenEventsAreClaimed(before: seq<Step>, w: nat, key: Key, after: seq<Step>)
    requires Legal(Start(), before) && Enabled(Run(Start(), before), Look(w, key))
    requires var s := Apply(Run(Start(), before), Look(w, key));
      && Legal(s, after) && (forall k :: 0 <= k < |after| ==> after[k] != Quit(w))
      && var s' := Run(s, after);
        w < |s'.watchers| && s'.watchers[w].Claiming? && s'.watchers[w].i == |s'.watchers[w].events|
    ensures var s := Apply(Run(Start(), before), Look(w, key)); EverClaimed(Run(s, after), key)
  {
    var s0 := Run(Start(), before);
    var s := Apply(s0, Look(w, key));
    RunKeepsPasses(Start(), before);
    LookSees(s0, w, key);
    StepKeepsPasses(s0, Look(w, key));
    StaysOnListRun(s, after, w, key);
    RunKeepsPasses(s, after);
    assert Handled(Run(s, after), Run(s, after).watchers[w]);
  }

  // ---- When a removal is harmless ----------------------------------------------------------

  lemma Prepend(s: State, step: Step, steps: seq<Step>)
    requires Enabled(s, step) && Timely(s, step) && Legal(Apply(s, step), steps) && TimelyRun(Apply(s, step), steps)
    ensures Legal(s, [step] + steps) && TimelyRun(s, [step] + steps)
    ensures Run(s, [step] + steps) == Run(Apply(s, step), steps)
  {
    assert ([step] + steps)[1..] == steps;
  }

  /** A watcher about to claim the unclaimed `key`, claiming and delivering it. */
  lemma ClaimAndDeliver(s: State, n: nat, key: Key) returns (steps: seq<Step>)
    requires key !in s.claims && n < |s.watchers| && s.watchers[n] == Claiming([key], 0)
    ensures Legal(s, steps) && TimelyRun(s, steps)
    ensures Run(s, steps) == s.(
      deliveries := s.deliveries + [Delivery(key, |s.grants|)], grants := s.grants + [Grant(key, s.now)],
      claims := s.claims[key := s.now], watchers := s.watchers[n := Claiming([key], 1)])
  {
    var s1 := Apply(s, Claim(n));
    assert s1.watchers == s.watchers[n := Delivering([key], 0, |s.grants|)];
    var s2 := Apply(s1, Deliver(n));
    assert s2.watchers == s.watchers[n := Claiming([key], 1)];
    Prepend(s1, Deliver(n), []);
    Prepend(s, Claim(n), [Deliver(n)] + []);
    steps := [Claim(n)] + ([Deliver(n)] + []);
  }

  /** A fresh watcher that finds `key` unclaimed claims it now and delivers it. */
  lemma FreshDelivery(s: State, key: Key) returns (steps: seq<Step>)
    requires key !in s.claims
    ensures Legal(s, steps) && TimelyRun(s, steps)
    ensures Run(s, steps).deliveries == s.deliveries + [Delivery(key, |s.grants|)]
    ensures Run(s, steps).grants == s.grants + [Grant(key, s.now)]
    ensures Run(s, steps).claims == s.claims[key := s.now] && Run(s, steps).now == s.now
    ensures Run(s, steps).watchers == s.watchers + [Claiming([key], 1)]
  {
    var n := |s.watchers|;
    var s1 := Apply(s, NewWatcher);
    var s2 := Apply(s1, StartScan(n));
    assert s2 == s.(watchers := s.watchers + [Scanning([])]);
    var s3 := Apply(s2, Look(n, key));
    assert [] + [key] == [key];
    assert s3 == s.(watchers := s.watchers + [Scanning([key])]);
    var s4 := Apply(s3, EndScan(n));
    assert s4 == s.(watchers := s.watchers + [Claiming([key], 0)]);
    steps := ClaimAndDeliver(s4, n, key);
    Prepend(s3, EndScan(n), steps);
    steps := [EndScan(n)] + steps;
    Prepend(s2, Look(n, key), steps);
    steps := [Look(n, key)] + steps;
    Prepend(s1, StartScan(n), steps);
    steps := [StartScan(n)] + steps;
    Prepend(s, NewWatcher, steps);
    steps := [NewWatcher] + steps;
  }

  /** Every continuation with harmless removals keeps deliveries spaced. */
  ghost predicate SafeFrom(s: State) {
    forall steps :: Legal(s, steps) && HarmlessRun(s, steps) ==> Spaced(Run(s, steps))
  }

  lemma SafeIfInv(s: State)
    requires Inv(s)
    ensures SafeFrom(s)
  {
    forall steps | Legal(s, steps) && HarmlessRun(s, steps) ensures Spaced(Run(s, steps)) {
      RunKeepsInv(s, steps);
      InvIsSpaced(Run(s, steps));
    }
  }

  /** A key delivered on a recent claim, and unclaimed, can be delivered again at once. */
  lemma UnsafeAfterDelivery(s: State, key: Key, i: nat)
    requires key !in s.claims && i < |s.deliveries| && s.deliveries[i].key == key && s.deliveries[i].grant < |s.grants|
    requires s.grants[s.deliveries[i].grant].at <= s.now <= s.grants[s.deliveries[i].grant].at + RETENTION
    ensures !SafeFrom(s)
  {
    var steps := FreshDelivery(s, key);
    TimelyIsHarmless(s, steps);
    var t := Run(s, steps);
    var j := |s.deliveries|;
    assert t.deliveries[i] == s.deliveries[i] && t.deliveries[j] == Delivery(key, |s.grants|);
    assert t.grants[t.deliveries[i].grant] == s.grants[s.deliveries[i].grant];
    assert !Spaced(t);
  }

  lemma SafeBackwards(s: State, step: Step)
    requires Enabled(s, step) && Harmless(s, step) && !SafeFrom(Apply(s, step))
    ensures !SafeFrom(s)
  {
    var steps :| Legal(Apply(s, step), steps) && HarmlessRun(Apply(s, step), steps) && !Spaced(Run(Apply(s, step), steps));
    assert ([step] + steps)[1..] == steps;
    assert Legal(s, [step] + steps) && HarmlessRun(s, [step] + steps);
    assert Run(s, [step] + steps) == Run(Apply(s, step), steps);
  }

  /** A claim in use: it is delivered, now or as the next step, and then the key can be delivered again. */
  lemma UnsafeIfInUse(s: State, w: nat, g: nat)
    requires Inv(s) && Enabled(s, PruneDelete(w)) && s.watchers[w].key in s.claims && g < |s.grants| && Usable(s, g)
    requires s.grants[g] == Grant(s.watchers[w].key, s.claims[s.watchers[w].key])
    requires s.claims[s.watchers[w].key] + RETENTION >= s.now
    ensures !SafeFrom(Apply(s, PruneDelete(w)))
  {
    var s', key := Apply(s, PruneDelete(w)), s.watchers[w].key;
    if i :| 0 <= i < |s.deliveries| && s.deliveries[i].grant == g {
      UnsafeAfterDelivery(s', key, i);
    } else {
      var v :| 0 <= v < |s.watchers| && Delivers(s, v, g);
      assert StageOk(s, v);
      var s1 := Apply(s', Deliver(v));
      assert s1.deliveries[|s.deliveries|] == Delivery(key, g);
      UnsafeAfterDelivery(s1, key, |s.deliveries|);
      SafeBackwards(s', Deliver(v));
    }
  }

  /**
   The source tests a claim file's age and removes the file in two operations. From any state that
   keeps the invariant, the removal keeps the promise exactly if the file then present is still older
   than the retention period, or belongs to a claim that no one has delivered or will deliver.
   */
  lemma RemovalIsSafeExactlyIf(s: State, w: nat)
    requires Inv(s) && Enabled(s, PruneDelete(w))
    ensures SafeFrom(Apply(s, PruneDelete(w))) <==> Harmless(s, PruneDelete(w))
  {
    if Harmless(s, PruneDelete(w)) {
      StepKeepsInv(s, PruneDelete(w));
      SafeIfInv(Apply(s, PruneDelete(w)));
    } else {
      var g :| 0 <= g < |s.grants| && Usable(s, g) && s.grants[g] == Grant(s.watchers[w].key, s.claims[s.watchers[w].key]);
      UnsafeIfInUse(s, w, g);
    }
  }

  lemma {:induction false} RunConcat(s: State, a: seq<Step>, b: seq<Step>)
    requires Legal(s, a) && Legal(Run(s, a), b)
    ensures Legal(s, a + b) && Run(s, a + b) == Run(Run(s, a), b)
    decreases a
  {
    if a == [] {
      assert a + b == b;
    } else {
      assert (a + b)[1..] == a[1..] + b;
      RunConcat(Apply(s, a[0]), a[1..], b);
    }
  }

  lemma Append(s: State, steps: seq<Step>, step: Step)
    requires Legal(s, steps) && Enabled(Run(s, steps), step)
    ensures Legal(s, steps + [step]) && Run(s, steps + [step]) == Apply(Run(s, steps), step)
  {
    assert [step][1..] == [];
    RunConcat(s, steps, [step]);
  }

  /** Two prunes that found the same old claim stale: the second removes its successor, delivered just now. */
  lemma RacingPrunesDeliverTwice(key: Key) returns (steps: seq<Step>)
    ensures Legal(Start(), steps) && !Spaced(Run(Start(), steps))
  {
    var s0 := Start();
    var first := FreshDelivery(s0, key);
    var s1 := Run(s0, first);
    var race := BothFindStale(s1, key);
    RunConcat(s0, first, race);
    var s2 := Run(s1, race);

    Append(s0, first + race, PruneDelete(1));
    var s3 := Apply(s2, PruneDelete(1));
    var second := FreshDelivery(s3, key);
    RunConcat(s0, first + race + [PruneDelete(1)], second);
    var s4 := Run(s3, second);
    assert s4.watchers[2].Deleting? && s4.watchers[2].key == key;

    steps := first + race + [PruneDelete(1)] + second;
    Append(s0, steps, PruneDelete(2));
    var s5 := Apply(s4, PruneDelete(2));
    var third := FreshDelivery(s5, key);
    RunConcat(s0, steps + [PruneDelete(2)], third);
    steps := steps + [PruneDelete(2)] + third;
    var s6 := Run(s0, steps);
    assert s6.deliveries[1] == Delivery(key, 1) && s6.deliveries[2] == Delivery(key, 2);
    assert s6.grants[1].at == s6.grants[2].at;
  }

  /** Watchers 1 and 2 start, and both find the claim of `key` older than the retention period. */
  lemma BothFindStale(s: State, key: Key) returns (steps: seq<Step>)
    requires |s.watchers| == 1 && s.claims == map[key := 0] && s.now == 0
    ensures Legal(s, steps)
    ensures var s' := Run(s, steps);
      && |s'.watchers| == 3 && s'.watchers[1].Deleting? && s'.watchers[1].key == key
      && s'.watchers[2].Deleting? && s'.watchers[2].key == key
      && s'.claims == s.claims && s'.grants == s.grants && s'.deliveries == s.deliveries
  {
    steps := [];
    Append(s, steps, Tick(RETENTION + 1));
    steps := steps + [Tick(RETENTION + 1)];
    Append(s, steps, NewWatcher);
    steps := steps + [NewWatcher];
    Append(s, steps, NewWatcher);
    steps := steps + [NewWatcher];
    Append(s, steps, StartPrune(1));
    steps := steps + [StartPrune(1)];
    Append(s, steps, StartPrune(2));
    steps := steps + [StartPrune(2)];
    Append(s, steps, PruneTest(1, key));
    steps := steps + [PruneTest(1, key)];
    Append(s, steps, PruneTest(2, key));
    steps := steps + [PruneTest(2, key)];
  }
}
