/** Safety, timing and progress of a BlueGreen swap over whole runs of
    reconcileBlueGreenAfterImport, instance passes, cluster deletions and the clock. */
module SwapSafety {
  import opened Operations
  import opened BlueGreen

  predicate Alive(s: Swap, cluster: string) {
    cluster in s.clusters && cluster !in s.terminating
  }

  predicate Going(s: Swap, cluster: string) {
    cluster !in s.clusters || cluster in s.terminating
  }

  /** The swap replaces `blue` by `green`, the two names the instance can use. */
  ghost predicate Pair(s: Swap, blue: string, green: string) {
    var owned, bg := OwnedClusterName(s.instance), GreenClusterName(s.instance);
    (blue == owned && green == bg) || (blue == bg && green == owned)
  }

  ghost predicate BeforeCutover(s: Swap, rb: RebuildStatus, blue: string, green: string) {
    && s.live == blue && s.secret == AppSecretName(blue)
    && rb.activeCluster == blue && rb.activeSecret == AppSecretName(blue)
    && Alive(s, blue) && (if rb.phase.Broken? then Going(s, green) else Alive(s, green))
    && rb.rollbackUntil.None? && s.confirmedAt.None?
  }

  ghost predicate AfterCutover(s: Swap, rb: RebuildStatus, blue: string, green: string) {
    && s.live == green && s.secret == AppSecretName(green)
    && rb.activeCluster == green && rb.activeSecret == AppSecretName(green)
    && Alive(s, green)
    && (rb.phase.Cutover? ==> rb.rollbackUntil.None? && s.confirmedAt.None? && Alive(s, blue))
    && (!rb.phase.Cutover? ==>
          && s.confirmedAt.Some? && rb.rollbackUntil == Some(Stored(s.confirmedAt.value + WINDOW)))
    && (rb.phase.RollbackWindow? ==> Alive(s, blue))
    && (rb.phase.GarbageCollect? ==> Going(s, blue) && s.now >= rb.rollbackUntil.value)
    && (rb.phase.Done? ==> blue !in s.clusters && s.now >= rb.rollbackUntil.value)
  }

  ghost predicate SwapInv(s: Swap, blue: string, green: string) {
    && Pair(s, blue, green)
    && s.terminating <= s.clusters
    && s.rebuild.Some?
    && var rb := s.rebuild.value;
       && rb.pendingCluster == green && rb.pendingSecret == AppSecretName(green)
       && if PastCutover(rb.phase) then AfterCutover(s, rb, blue, green) else BeforeCutover(s, rb, blue, green)
  }

  lemma TruncationIsIdempotent(t: Instant)
    ensures Stored(Stored(t)) == Stored(t)
    ensures Stored(t) <= t < Stored(t) + SECOND
  {
  }

  lemma OtherName(s: Swap, blue: string, green: string)
    requires Pair(s, blue, green)
    ensures blue != green && green != ""
    ensures s.live == blue ==> RetiredClusterName(s) == green
    ensures s.live == green ==> RetiredClusterName(s) == blue
  {
    NamesDiffer(s.instance);
  }

  lemma EarlyStepKeepsInv(s: Swap, blue: string, green: string, opFailed: bool)
    requires SwapInv(s, blue, green) && !PastCutover(s.rebuild.value.phase)
    ensures SwapInv(AfterImport(s, "", opFailed).0, blue, green)
  {
    OtherName(s, blue, green);
    hide RetiredClusterName, OwnedClusterName, GreenClusterName, AppSecretName, Seed;
  }

  lemma LateStepKeepsInv(s: Swap, blue: string, green: string, opFailed: bool)
    requires SwapInv(s, blue, green) && PastCutover(s.rebuild.value.phase)
    ensures SwapInv(AfterImport(s, "", opFailed).0, blue, green)
  {
    OtherName(s, blue, green);
    if s.rebuild.value.rollbackUntil.Some? {
      TruncationIsIdempotent(s.confirmedAt.value + WINDOW);
    }
    hide RetiredClusterName, OwnedClusterName, GreenClusterName, AppSecretName, Seed;
  }

  lemma StepKeepsInv(s: Swap, blue: string, green: string, e: Event)
    requires SwapInv(s, blue, green)
    ensures SwapInv(Apply(s, e), blue, green)
  {
    NamesDiffer(s.instance);
    match e
    case AfterImportPass(opFailed) =>
      if PastCutover(s.rebuild.value.phase) {
        LateStepKeepsInv(s, blue, green, opFailed);
      } else {
        EarlyStepKeepsInv(s, blue, green, opFailed);
      }
    case InstancePass =>
    case ClusterGone(c) =>
    case Tick(d) =>
  }

  lemma {:induction false} RunKeepsInv(s: Swap, blue: string, green: string, events: seq<Event>)
    requires SwapInv(s, blue, green)
    ensures SwapInv(Run(s, events), blue, green)
  {
    hide Apply, SwapInv;
    if events != [] {
      RunKeepsInv(s, blue, green, events[..|events| - 1]);
      StepKeepsInv(Run(s, events[..|events| - 1]), blue, green, events[|events| - 1]);
    }
  }

  /** An instance between swaps: its live Cluster is one of its two names and is healthy. */
  ghost predicate Settled(s: Swap) {
    && (s.live == OwnedClusterName(s.instance) || s.live == GreenClusterName(s.instance))
    && s.secret == AppSecretName(s.live)
    && s.terminating <= s.clusters
    && Alive(s, s.live)
  }

  /** A fresh seed establishes the invariant exactly when the sibling it chooses is not
      still being deleted. Nothing in the readiness check looks at the deletion timestamp. */
  lemma StartIsSafeIff(s: Swap, operation: string)
    requires Settled(s)
    ensures var blue := s.live;
            var green := RetiredClusterName(s);
            && Pair(s, blue, green)
            && (SwapInv(Start(s, operation), blue, green) <==> green !in s.terminating)
  {
    NamesDiffer(s.instance);
  }

  // ---------------------------------------------------------------- what a run promises

  /** In every reachable state the Cluster the API and the Jobs are attached to exists and
      is not being deleted, and the connection Secret is that Cluster's. Before cutover the
      active Cluster is the live one and the pending one is another; from cutover on all
      three are the same. */
  lemma LiveClusterExists(s: Swap, operation: string, events: seq<Event>)
    requires Settled(s) && RetiredClusterName(s) !in s.terminating
    ensures var t := Run(Start(s, operation), events);
            && t.live in t.clusters && t.live !in t.terminating
            && t.secret == AppSecretName(t.live)
            && t.rebuild.Some? && t.rebuild.value.activeCluster == t.live
            && (PastCutover(t.rebuild.value.phase) <==> t.rebuild.value.pendingCluster == t.live)
            && t.live == (if PastCutover(t.rebuild.value.phase) then RetiredClusterName(s) else s.live)
  {
    hide SwapInv, Start;
    StartIsSafeIff(s, operation);
    NamesDiffer(s.instance);
    RunKeepsInv(Start(s, operation), s.live, RetiredClusterName(s), events);
    StateOf(Run(Start(s, operation), events), s.live, RetiredClusterName(s));
    assert s.live != RetiredClusterName(s);
  }

  lemma StateOf(t: Swap, blue: string, green: string)
    requires SwapInv(t, blue, green)
    ensures t.rebuild.Some? && t.rebuild.value.activeCluster == t.live && t.rebuild.value.pendingCluster == green
    ensures Alive(t, t.live) && t.secret == AppSecretName(t.live)
    ensures t.live == if PastCutover(t.rebuild.value.phase) then green else blue
  {
  }

  /** One step of a run: the phase never goes back, the terminal phases absorb, the deadline
      is set once, and what a step deletes is never the live Cluster. */
  lemma StepIsForward(s: Swap, blue: string, green: string, e: Event)
    requires SwapInv(s, blue, green)
    ensures var t := Apply(s, e);
            && t.rebuild.Some?
            && Rank(t.rebuild.value.phase) >= Rank(s.rebuild.value.phase)
            && (s.rebuild.value.phase.Done? || s.rebuild.value.phase.Broken? ==>
                  t.rebuild.value.phase == s.rebuild.value.phase)
            && (s.rebuild.value.rollbackUntil.Some? ==>
                  t.rebuild.value.rollbackUntil == s.rebuild.value.rollbackUntil)
            && t.live !in t.terminating && t.live in t.clusters
  {
    hide Advance;
    StepKeepsInv(s, blue, green, e);
    StateOf(Apply(s, e), blue, green);
    if e.AfterImportPass? {
      var rb := s.rebuild.value;
      AdvanceIsMonotone(InputFrom(s, rb, e.opFailed, RetiredClusterName(s) !in s.clusters));
      if rb.rollbackUntil.Some? { TruncationIsIdempotent(s.confirmedAt.value + WINDOW); }
    }
  }

  // ---------------------------------------------------------------- timing

  /** A step in which the deletion of blue is requested comes no earlier than the stored
      deadline, which is the confirmation of cutover plus the window, cut to whole seconds. */
  lemma BlueIsKept(s: Swap, operation: string, events: seq<Event>, e: Event)
    requires Settled(s) && RetiredClusterName(s) !in s.terminating
    requires var t := Run(Start(s, operation), events);
             && s.live in t.clusters && s.live !in t.terminating
             && s.live in Apply(t, e).terminating
    ensures var t := Run(Start(s, operation), events);
            && t.confirmedAt.Some?
            && t.now >= Stored(t.confirmedAt.value + WINDOW)
            && t.now > t.confirmedAt.value + WINDOW - SECOND
            && t.now > t.confirmedAt.value + 3_599_000_000_000
            && (t.confirmedAt.value % SECOND == 0 ==> t.now >= t.confirmedAt.value + WINDOW)
  {
    hide Start, Apply, SwapInv;
    var t := Run(Start(s, operation), events);
    StartIsSafeIff(s, operation);
    RunKeepsInv(Start(s, operation), s.live, RetiredClusterName(s), events);
    CollectsAfterDeadline(t, s.live, RetiredClusterName(s), e);
    TruncationIsIdempotent(t.confirmedAt.value + WINDOW);
  }

  lemma CollectsAfterDeadline(t: Swap, blue: string, green: string, e: Event)
    requires SwapInv(t, blue, green) && Alive(t, blue) && blue in Apply(t, e).terminating
    ensures t.confirmedAt.Some? && t.now >= Stored(t.confirmedAt.value + WINDOW)
  {
    NamesDiffer(t.instance);
    if e.AfterImportPass? {
      var rb := t.rebuild.value;
      AdvanceIsMonotone(InputFrom(t, rb, e.opFailed, RetiredClusterName(t) !in t.clusters));
    }
  }

  /** The clock allows blue to be collected. */
  predicate DeadlinePassed(confirmedAt: Instant, now: Instant) {
    now >= Stored(confirmedAt + WINDOW)
  }

  /** The truncation matters: the stored deadline leaves a full window exactly when cutover
      was confirmed on a whole second. */
  lemma FullWindowIff(confirmedAt: Instant)
    ensures (forall now :: DeadlinePassed(confirmedAt, now) ==> now >= confirmedAt + WINDOW)
            <==> confirmedAt % SECOND == 0
  {
    assert DeadlinePassed(confirmedAt, Stored(confirmedAt + WINDOW));
    assert (confirmedAt + WINDOW) % SECOND == confirmedAt % SECOND;
  }

  // ---------------------------------------------------------------- progress

  /** A pass moves the swap on unless it is waiting for the deadline, for blue to disappear,
      or has finished. A successful import alone gets it as far as the rollback window. */
  ghost predicate Stalled(s: Swap)
    requires s.rebuild.Some?
  {
    var rb := s.rebuild.value;
    || rb.phase.Done? || rb.phase.Broken?
    || (rb.phase.RollbackWindow? && !(rb.rollbackUntil.Some? && s.now >= rb.rollbackUntil.value))
    || (rb.phase.GarbageCollect? && RetiredClusterName(s) in s.clusters)
  }

  lemma PassMovesIff(s: Swap, blue: string, green: string)
    requires SwapInv(s, blue, green)
    ensures var t := Apply(s, AfterImportPass(false));
            && t.rebuild.Some?
            && (Rank(t.rebuild.value.phase) > Rank(s.rebuild.value.phase) <==> !Stalled(s))
            && (t.rebuild.value.phase.Broken? <==> s.rebuild.value.phase.Broken?)
  {
    hide Advance;
    var rb := s.rebuild.value;
    AdvanceIsMonotone(InputFrom(s, rb, false, RetiredClusterName(s) !in s.clusters));
  }

  /** How many passes of a run found something to do. */
  ghost function Moves(s: Swap, events: seq<Event>): nat {
    if events == [] then 0
    else
      var before := Run(s, events[..|events| - 1]);
      Moves(s, events[..|events| - 1])
      + if events[|events| - 1].AfterImportPass? && before.rebuild.Some? && !Stalled(before) then 1 else 0
  }

  ghost predicate NeverFails(events: seq<Event>) {
    forall i :: 0 <= i < |events| && events[i].AfterImportPass? ==> !events[i].opFailed
  }

  /** A swap is seeded as Provisioning and leaves it for ReadyToCutover in one pass. */
  ghost predicate Underway(phase: RebuildPhase) {
    !phase.NoPhase? && !phase.Importing? && !phase.Broken?
  }

  lemma PassCounts(s: Swap, blue: string, green: string)
    requires SwapInv(s, blue, green) && Underway(s.rebuild.value.phase)
    ensures var t := Apply(s, AfterImportPass(false));
            var phase := s.rebuild.value.phase;
            && t.rebuild.Some? && Underway(t.rebuild.value.phase)
            && (Stalled(s) ==> t.rebuild.value.phase == phase)
            && (!Stalled(s) ==>
                  Rank(t.rebuild.value.phase) == if phase.Provisioning? then 2 else Rank(phase) + 1)
  {
    hide Advance;
    var rb := s.rebuild.value;
    var x := InputFrom(s, rb, false, RetiredClusterName(s) !in s.clusters);
    AdvanceIsMonotone(x);
    AdvanceUnderway(x);
  }

  lemma AdvanceUnderway(x: Input)
    requires !x.failed && !x.phase.NoPhase? && !x.phase.Provisioning? && !x.phase.Broken?
    requires x.phase.Importing? ==> x.importSucceeded
    ensures Underway(Advance(x).0.phase)
    ensures Blocked(x) ==> Advance(x).0.phase == x.phase
  {
  }

  /** The passes that found something to do determine the phase. */
  lemma {:induction false} MovesAreRanks(s: Swap, blue: string, green: string, events: seq<Event>)
    requires SwapInv(s, blue, green) && NeverFails(events) && s.rebuild.value.phase.Provisioning?
    ensures var t := Run(s, events);
            && t.rebuild.Some? && Underway(t.rebuild.value.phase)
            && (Moves(s, events) == 0 ==> t.rebuild.value.phase.Provisioning?)
            && (Moves(s, events) > 0 ==> Rank(t.rebuild.value.phase) == Moves(s, events) + 1)
  {
    hide Apply, SwapInv, Stalled;
    StateOf(s, blue, green);
    if events != [] {
      var before, e := events[..|events| - 1], events[|events| - 1];
      MovesAreRanks(s, blue, green, before);
      RunKeepsInv(s, blue, green, before);
      StateOf(Run(s, before), blue, green);
      if e.AfterImportPass? {
        PassCounts(Run(s, before), blue, green);
        assert e == AfterImportPass(false);
      } else {
        OnlyPassesBreak(Run(s, before), blue, green, e);
      }
    }
  }

  lemma OnlyPassesBreak(s: Swap, blue: string, green: string, e: Event)
    requires SwapInv(s, blue, green) && !e.AfterImportPass?
    ensures Apply(s, e).rebuild == s.rebuild
  {
  }

  /** At most five passes of a swap whose import never fails find something to do, and it has
      succeeded exactly when five have; after any run a pass finds nothing to do only because
      the swap has succeeded, the deadline is still ahead, or blue is still being deleted. */
  lemma SwapSucceeds(s: Swap, operation: string, events: seq<Event>)
    requires Settled(s) && RetiredClusterName(s) !in s.terminating && NeverFails(events)
    ensures var t := Run(Start(s, operation), events);
            && t.rebuild.Some?
            && Moves(Start(s, operation), events) <= 5
            && (Moves(Start(s, operation), events) == 5 <==> t.rebuild.value.phase.Done?)
            && (Stalled(t) ==>
                  || t.rebuild.value.phase.Done?
                  || (t.confirmedAt.Some? && t.now < Stored(t.confirmedAt.value + WINDOW))
                  || (t.rebuild.value.phase.GarbageCollect? && s.live in t.terminating))
  {
    hide Start, SwapInv, Apply, Stalled, Settled, Pair;
    var s0 := Start(s, operation);
    NamesDiffer(s.instance);
    StartIsSafeIff(s, operation);
    StartPhase(s, operation);
    MovesAreRanks(s0, s.live, RetiredClusterName(s), events);
    RunKeepsInv(s0, s.live, RetiredClusterName(s), events);
    StallReasons(Run(s0, events), s.live, RetiredClusterName(s));
  }

  lemma StartPhase(s: Swap, operation: string)
    ensures Start(s, operation).rebuild.Some? && Start(s, operation).rebuild.value.phase.Provisioning?
  {
  }

  lemma StallReasons(t: Swap, blue: string, green: string)
    requires SwapInv(t, blue, green) && !t.rebuild.value.phase.Broken?
    ensures Stalled(t) ==>
              || t.rebuild.value.phase.Done?
              || (t.confirmedAt.Some? && t.now < Stored(t.confirmedAt.value + WINDOW))
              || (t.rebuild.value.phase.GarbageCollect? && blue in t.terminating)
  {
    NamesDiffer(t.instance);
  }

  lemma {:induction false} RunConcat(s: Swap, a: seq<Event>, b: seq<Event>)
    ensures Run(s, a + b) == Run(Run(s, a), b)
  {
    hide Apply;
    if b == [] {
      assert a + b == a;
    } else {
      assert (a + b)[..|a + b| - 1] == a + b[..|b| - 1];
      RunConcat(s, a, b[..|b| - 1]);
    }
  }

  lemma RunSingle(s: Swap, e: Event)
    ensures Run(s, [e]) == Apply(s, e)
  {
    hide Apply;
    assert [e][..0] == [];
  }

  /** The clock reaching the deadline, or CNPG finishing the deletion of blue, ends a stall. */
  lemma Unstall(t: Swap, blue: string, green: string) returns (events: seq<Event>)
    requires SwapInv(t, blue, green) && !t.rebuild.value.phase.Broken? && !t.rebuild.value.phase.Done?
    ensures NeverFails(events)
    ensures var u := Run(t, events); SwapInv(u, blue, green) && u.rebuild == t.rebuild && !Stalled(u)
  {
    var rb := t.rebuild.value;
    OtherName(t, blue, green);
    if rb.phase.RollbackWindow? && t.now < rb.rollbackUntil.value {
      var e := Tick(rb.rollbackUntil.value - t.now);
      StepKeepsInv(t, blue, green, e);
      RunSingle(t, e);
      events := [e];
    } else if rb.phase.GarbageCollect? && blue in t.clusters {
      StepKeepsInv(t, blue, green, ClusterGone(blue));
      RunSingle(t, ClusterGone(blue));
      events := [ClusterGone(blue)];
    } else {
      events := [];
    }
  }

  /** From every state a swap can reach without a failure it can be finished. */
  lemma {:induction false} CanFinish(t: Swap, blue: string, green: string) returns (events: seq<Event>)
    requires SwapInv(t, blue, green) && !t.rebuild.value.phase.Broken?
    ensures NeverFails(events)
    ensures var u := Run(t, events); u.rebuild.Some? && u.rebuild.value.phase.Done?
    decreases 6 - Rank(t.rebuild.value.phase)
  {
    hide Apply, Stalled, Pair, BeforeCutover, AfterCutover;
    if t.rebuild.value.phase.Done? {
      events := [];
    } else {
      var first := Unstall(t, blue, green);
      var u := Run(t, first);
      var pass := AfterImportPass(false);
      PassMovesIff(u, blue, green);
      StepKeepsInv(u, blue, green, pass);
      var rest := CanFinish(Apply(u, pass), blue, green);
      RunSingle(u, pass);
      RunConcat(u, [pass], rest);
      RunConcat(t, first, [pass] + rest);
      events := first + ([pass] + rest);
    }
  }

  /** Every run of a swap whose import never fails can be continued to success. */
  lemma SwapCanSucceed(s: Swap, operation: string, events: seq<Event>) returns (more: seq<Event>)
    requires Settled(s) && RetiredClusterName(s) !in s.terminating && NeverFails(events)
    ensures NeverFails(events + more)
    ensures var t := Run(Start(s, operation), events + more); t.rebuild.Some? && t.rebuild.value.phase.Done?
  {
    hide Start, SwapInv, Apply;
    var s0 := Start(s, operation);
    StartIsSafeIff(s, operation);
    StartPhase(s, operation);
    MovesAreRanks(s0, s.live, RetiredClusterName(s), events);
    RunKeepsInv(s0, s.live, RetiredClusterName(s), events);
    more := CanFinish(Run(s0, events), s.live, RetiredClusterName(s));
    RunConcat(s0, events, more);
  }

  // ---------------------------------------------------------------- one pass

  /** The phase after a pass, by the phase before, the import's result, the attachment, the
      clock and the retired Cluster. */
  function PhaseAfter(s: Swap, rb: RebuildStatus, opFailed: bool): RebuildPhase {
    match rb.phase
    case NoPhase | Provisioning | Importing => if opFailed then Broken else ReadyToCutover
    case ReadyToCutover => if opFailed then Broken else Cutover
    case Cutover =>
      if s.live == rb.pendingCluster && s.secret == rb.pendingSecret then RollbackWindow else Cutover
    case RollbackWindow =>
      if rb.rollbackUntil != None && s.now >= rb.rollbackUntil.value then GarbageCollect else RollbackWindow
    case GarbageCollect => if RetiredClusterName(s) in s.clusters then GarbageCollect else Done
    case Done => Done
    case Broken => Broken
  }

  /** The table of a pass in any state with a swap under way: its next phase, that it attaches
      the instance to the pending Cluster exactly when it is cutting over, and that it asks
      to delete the retired Cluster while collecting, the pending one when an import has just
      failed, and nothing else. */
  lemma SwapPassTable(s: Swap, operation: string, opFailed: bool)
    requires s.rebuild != None && s.rebuild.value.pendingCluster != ""
    ensures var u := AfterImport(s, operation, opFailed).0;
            var rb, phase := s.rebuild.value, PhaseAfter(s, s.rebuild.value, opFailed);
            var doomed := if phase == GarbageCollect then {RetiredClusterName(s)}
                          else if phase == Broken && rb.phase != Broken then {rb.pendingCluster} else {};
            && u.rebuild != None && u.rebuild.value.phase == phase
            && u.live == (if phase == Cutover then rb.pendingCluster else s.live)
            && u.secret == (if phase == Cutover then rb.pendingSecret else s.secret)
            && u.clusters == s.clusters && u.terminating == s.terminating + (doomed * s.clusters)
            && u.instance == s.instance && u.now == s.now
  {
    hide OwnedClusterName, GreenClusterName, AppSecretName, Seed, RetiredClusterName;
  }

  // ---------------------------------------------------------------- the verdict

  /** What each pass makes of the Operation, in any run of a swap: Succeeded exactly when the
      swap is done, and then green is live and blue is gone; Failed exactly when the swap has
      failed, and then blue is still live and green is gone or being deleted; and otherwise
      the Operation goes on running. */
  lemma VerdictIsTheSwaps(s: Swap, operation: string, events: seq<Event>, opFailed: bool)
    requires Settled(s) && RetiredClusterName(s) !in s.terminating
    ensures var t := Run(Start(s, operation), events);
            var (u, phase) := AfterImport(t, operation, opFailed);
            && u.rebuild != None
            && (phase == Phase.Succeeded <==> u.rebuild.value.phase == Done)
            && (phase == Phase.Failed <==> u.rebuild.value.phase == Broken)
            && (phase in {Phase.Succeeded, Phase.Failed, Phase.Running})
            && (phase == Phase.Succeeded ==>
                  s.live !in u.clusters && u.live == RetiredClusterName(s) && Alive(u, u.live))
            && (phase == Phase.Failed ==>
                  u.live == s.live && Alive(u, u.live)
                  && (RetiredClusterName(s) in u.clusters ==> RetiredClusterName(s) in u.terminating))
  {
    var t := Run(Start(s, operation), events);
    var blue, green := s.live, RetiredClusterName(s);
    StartIsSafeIff(s, operation);
    RunKeepsInv(Start(s, operation), blue, green, events);
    SeedDoesNotMatter(t, blue, green, operation, opFailed);
    hide Start, Run, Settled;
    StepKeepsInv(t, blue, green, AfterImportPass(opFailed));
    VerdictOf(t, operation, opFailed);
    StateAtEnd(AfterImport(t, operation, opFailed).0, blue, green);
  }

  /** A swap that has begun is not seeded again. */
  lemma SeedDoesNotMatter(t: Swap, blue: string, green: string, operation: string, opFailed: bool)
    requires SwapInv(t, blue, green)
    ensures AfterImport(t, operation, opFailed) == AfterImport(t, "", opFailed)
  {
  }

  lemma VerdictOf(t: Swap, operation: string, opFailed: bool)
    ensures var (u, phase) := AfterImport(t, operation, opFailed);
            && u.rebuild != None
            && (phase == Phase.Succeeded <==> u.rebuild.value.phase == Done)
            && (phase == Phase.Failed <==> u.rebuild.value.phase == Broken)
            && (phase in {Phase.Succeeded, Phase.Failed, Phase.Running})
  {
    hide Advance, Seed, RetiredClusterName, InputFrom;
  }

  lemma StateAtEnd(u: Swap, blue: string, green: string)
    requires SwapInv(u, blue, green)
    ensures u.rebuild.value.phase == Done ==> blue !in u.clusters && u.live == green && Alive(u, u.live)
    ensures u.rebuild.value.phase == Broken ==> u.live == blue && Alive(u, u.live) && Going(u, green)
  {
  }

  /** status.rebuild names the Operation it was seeded for, all along the run. */
  lemma {:induction false} SwapNamesItsOperation(s: Swap, operation: string, events: seq<Event>)
    ensures var t := Run(Start(s, operation), events);
            t.rebuild != None && t.rebuild.value.operation == operation
  {
    hide Advance, RetiredClusterName, InputFrom;
    if events != [] {
      SwapNamesItsOperation(s, operation, events[..|events| - 1]);
    }
  }

  /** In every state of a swap that has failed, blue is live as before and green is gone or
      being deleted. */
  lemma FailedSwapDropsGreen(s: Swap, operation: string, events: seq<Event>)
    requires Settled(s) && RetiredClusterName(s) !in s.terminating
    requires var t := Run(Start(s, operation), events); t.rebuild != None && t.rebuild.value.phase == Broken
    ensures var t := Run(Start(s, operation), events);
            && t.live == s.live && Alive(t, t.live)
            && (RetiredClusterName(s) in t.clusters ==> RetiredClusterName(s) in t.terminating)
  {
    hide Start;
    StartIsSafeIff(s, operation);
    RunKeepsInv(Start(s, operation), s.live, RetiredClusterName(s), events);
    StateAtEnd(Run(Start(s, operation), events), s.live, RetiredClusterName(s));
  }
}
