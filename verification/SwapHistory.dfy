/** Several swaps one after the other, and what happens when a swap is driven by the whole
    Operation Reconcile or started on a Cluster that is still being deleted. */
module SwapHistory {
  import opened Operations
  import opened BlueGreen
  import opened SwapSafety

  // ---------------------------------------------------------------- alternation

  /** One swap: the Operation it is seeded for and everything that happens until the next. */
  datatype Episode = Episode(operation: string, events: seq<Event>)

  function Play(s: Swap, episode: Episode): Swap {
    Run(Start(s, episode.operation), episode.events)
  }

  function PlayAll(s: Swap, episodes: seq<Episode>): Swap {
    if episodes == [] then s
    else Play(PlayAll(s, episodes[..|episodes| - 1]), episodes[|episodes| - 1])
  }

  ghost predicate EachSucceeds(s: Swap, episodes: seq<Episode>) {
    episodes != [] ==>
      && EachSucceeds(s, episodes[..|episodes| - 1])
      && var t := PlayAll(s, episodes);
         t.rebuild.Some? && t.rebuild.value.phase.Done?
  }

  /** Settled, and the other name is free for the next swap. */
  ghost predicate Ready(s: Swap) {
    Settled(s) && RetiredClusterName(s) !in s.clusters
  }

  lemma EpisodeSwaps(s: Swap, episode: Episode)
    requires Ready(s)
    requires var t := Play(s, episode); t.rebuild.Some? && t.rebuild.value.phase.Done?
    ensures var t := Play(s, episode);
            && Ready(t) && t.instance == s.instance
            && t.live == RetiredClusterName(s) && RetiredClusterName(t) == s.live
  {
    NamesDiffer(s.instance);
    StartIsSafeIff(s, episode.operation);
    RunKeepsInv(Start(s, episode.operation), s.live, RetiredClusterName(s), episode.events);
    InstanceIsFixed(Start(s, episode.operation), episode.events);
  }

  lemma {:induction false} InstanceIsFixed(s: Swap, events: seq<Event>)
    ensures Run(s, events).instance == s.instance
  {
    if events != [] {
      InstanceIsFixed(s, events[..|events| - 1]);
      var before, e := Run(s, events[..|events| - 1]), events[|events| - 1];
      assert Apply(before, e).instance == before.instance;
    }
  }

  lemma {:induction false} SwapsAlternate(s: Swap, episodes: seq<Episode>)
    requires Ready(s) && EachSucceeds(s, episodes)
    ensures var t := PlayAll(s, episodes);
            && Ready(t) && t.instance == s.instance
            && t.live == (if |episodes| % 2 == 0 then s.live else RetiredClusterName(s))
            && RetiredClusterName(t) == (if |episodes| % 2 == 0 then RetiredClusterName(s) else s.live)
  {
    hide Play, Ready;
    if episodes != [] {
      SwapsAlternate(s, episodes[..|episodes| - 1]);
      EpisodeSwaps(PlayAll(s, episodes[..|episodes| - 1]), episodes[|episodes| - 1]);
    }
  }

  /** From an instance's first database pass on: after n completed swaps, with any instance
      passes, clock steps and deletions among them, the live Cluster carries the default name
      when n is even and the `-bg` name when n is odd, exists, and lends the instance its
      connection Secret. */
  lemma LiveNameAlternates(instance: string, now: Instant, episodes: seq<Episode>)
    requires var s := Apply(Swap(instance, "", "", None, {}, {}, now, None), InstancePass);
             EachSucceeds(s, episodes)
    ensures var t := PlayAll(Apply(Swap(instance, "", "", None, {}, {}, now, None), InstancePass), episodes);
            && t.live == (if |episodes| % 2 == 0 then instance + "-pg" else instance + "-pg" + "-bg")
            && t.live in t.clusters && t.live !in t.terminating
            && t.secret == t.live + "-app"
  {
    hide PlayAll, EachSucceeds;
    NamesDiffer(instance);
    SwapsAlternate(Apply(Swap(instance, "", "", None, {}, {}, now, None), InstancePass), episodes);
  }

  /** There is no limit to the number of swaps: from every instance that is ready for one, any
      number of them can be completed one after the other. */
  lemma {:induction false} AnyNumberOfSwaps(s: Swap, n: nat) returns (episodes: seq<Episode>)
    requires Ready(s)
    ensures |episodes| == n && EachSucceeds(s, episodes)
  {
    hide Ready, Play;
    if n == 0 {
      episodes := [];
    } else {
      var before := AnyNumberOfSwaps(s, n - 1);
      SwapsAlternate(s, before);
      var last := OneSwap(PlayAll(s, before));
      episodes := before + [last];
      assert episodes[..|episodes| - 1] == before;
    }
  }

  lemma OneSwap(s: Swap) returns (episode: Episode)
    requires Ready(s)
    ensures var t := Play(s, episode); t.rebuild.Some? && t.rebuild.value.phase.Done?
  {
    var events := SwapCanSucceed(s, "", []);
    episode := Episode("", events);
    assert [] + events == events;
  }

  // ---------------------------------------------------------------- teardown

  /** deleteOwnedCNPGResources: the Database goes by the live Cluster's name, the Cluster by
      its default name. */
  function TeardownDatabase(s: Swap): string {
    LiveClusterName(s) + "-nominatim"
  }

  function TeardownCluster(s: Swap): string {
    OwnedClusterName(s.instance)
  }

  /** After n completed swaps teardown asks for the live Database, and for the live Cluster
      exactly when n is even: after an odd number it asks for a Cluster that no longer exists,
      and the live one is left to the garbage collector. */
  lemma TeardownReachesLiveIff(instance: string, now: Instant, episodes: seq<Episode>)
    requires var s := Apply(Swap(instance, "", "", None, {}, {}, now, None), InstancePass);
             EachSucceeds(s, episodes)
    ensures var t := PlayAll(Apply(Swap(instance, "", "", None, {}, {}, now, None), InstancePass), episodes);
            && TeardownDatabase(t) == t.live + "-nominatim"
            && (TeardownCluster(t) == t.live <==> |episodes| % 2 == 0)
            && (TeardownCluster(t) in t.clusters <==> |episodes| % 2 == 0)
  {
    hide PlayAll, EachSucceeds;
    NamesDiffer(instance);
    SwapsAlternate(Apply(Swap(instance, "", "", None, {}, {}, now, None), InstancePass), episodes);
  }

  // ---------------------------------------------------------------- starting on a dying Cluster

  ghost predicate LiveIsAlive(s: Swap, operation: string, events: seq<Event>) {
    var t := Run(Start(s, operation), events);
    Alive(t, t.live)
  }

  /** The live Cluster survives every run of a swap exactly when the sibling the swap was
      started on was not being deleted. */
  lemma LiveClusterExistsIff(s: Swap, operation: string)
    requires Settled(s)
    ensures (forall events :: LiveIsAlive(s, operation, events)) <==> RetiredClusterName(s) !in s.terminating
  {
    if RetiredClusterName(s) in s.terminating {
      var events := DyingGreenGoesLive(s, operation);
      assert !LiveIsAlive(s, operation, events);
    } else {
      forall events ensures LiveIsAlive(s, operation, events) {
        LiveClusterExists(s, operation, events);
      }
    }
  }

  lemma RunAppend(s: Swap, events: seq<Event>, e: Event)
    ensures Run(s, events + [e]) == Apply(Run(s, events), e)
  {
    assert (events + [e])[..|events + [e]| - 1] == events;
  }

  /** Two passes cut over to the Cluster that a failed swap had asked to delete. */
  lemma DyingGreenGoesLive(s: Swap, operation: string) returns (events: seq<Event>)
    requires Settled(s) && RetiredClusterName(s) in s.terminating
    ensures var t := Run(Start(s, operation), events); t.live !in t.clusters
  {
    NamesDiffer(s.instance);
    var pass, gone := AfterImportPass(false), ClusterGone(RetiredClusterName(s));
    var s0 := Start(s, operation);
    RunAppend(s0, [], pass);
    RunAppend(s0, [] + [pass], pass);
    RunAppend(s0, [] + [pass] + [pass], gone);
    events := [] + [pass] + [pass] + [gone];
    var s1 := Apply(s0, pass);
    assert s1.rebuild.value.phase.ReadyToCutover?;
    var s2 := Apply(s1, pass);
    assert s2.live == RetiredClusterName(s) && s2.terminating == s.terminating;
  }

  // ---------------------------------------------------------------- the whole Reconcile

  /** One Reconcile of an active BlueGreen Rebuild: waitForJobPrerequisites provisions the
      sibling and, once it is ready, writes the phase Importing; the import's result, when
      the Job has one, is only then handed to reconcileBlueGreenAfterImport. */
  function WholePass(s: Swap, operation: string, pendingReady: bool, importFailed: Option<bool>): Swap {
    var s1 := EnsurePending(s, operation);
    if !pendingReady then s1
    else
      var s2 := s1.(rebuild := Some(s1.rebuild.value.(phase := Importing)));
      match importFailed
      case None => s2
      case Some(failed) => AfterImport(s2, operation, failed).0
  }

  datatype Round =
    | Reconcile(operation: string, pendingReady: bool, importFailed: Option<bool>)
    | Other(event: Event)

  function PlayRound(s: Swap, round: Round): Swap {
    match round
    case Reconcile(operation, ready, failed) => WholePass(s, operation, ready, failed)
    case Other(e) => if e.AfterImportPass? then s else Apply(s, e)
  }

  function PlayRounds(s: Swap, rounds: seq<Round>): Swap {
    if rounds == [] then s
    else PlayRound(PlayRounds(s, rounds[..|rounds| - 1]), rounds[|rounds| - 1])
  }

  ghost predicate NotPastCutover(s: Swap) {
    s.rebuild.Some? ==> !PastCutover(s.rebuild.value.phase)
  }

  lemma RoundDoesNotCutOver(s: Swap, round: Round)
    requires NotPastCutover(s) && s.live != "" && s.secret == AppSecretName(s.live)
    ensures var t := PlayRound(s, round);
            && NotPastCutover(t) && t.live == s.live && t.secret == s.secret
  {
  }

  /** A BlueGreen Rebuild that only ever runs through the Operation's own Reconcile never
      reaches cutover, however often its import succeeds: each pass starts the phase machine
      at Importing again, so it gets no further than ReadyToCutover. */
  lemma {:induction false} WholeReconcileNeverCutsOver(s: Swap, rounds: seq<Round>)
    requires NotPastCutover(s) && s.live != "" && s.secret == AppSecretName(s.live)
    ensures var t := PlayRounds(s, rounds);
            && (t.rebuild.Some? ==> !PastCutover(t.rebuild.value.phase))
            && t.live == s.live && t.secret == s.secret
  {
    hide PlayRound;
    if rounds != [] {
      WholeReconcileNeverCutsOver(s, rounds[..|rounds| - 1]);
      RoundDoesNotCutOver(PlayRounds(s, rounds[..|rounds| - 1]), rounds[|rounds| - 1]);
    }
  }

  /** Even a swap that stands past cutover is set back by the next whole pass. */
  lemma WholePassRewinds(s: Swap, operation: string, importFailed: Option<bool>)
    requires s.rebuild.Some?
    ensures var t := WholePass(s, operation, true, importFailed);
            && t.rebuild.Some? && t.live == s.live
            && var phase := t.rebuild.value.phase;
               phase.Importing? || phase.ReadyToCutover? || phase.Broken?
  {
  }
}
