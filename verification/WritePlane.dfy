/** The write plane: which Operations exclude each other, who holds it, and how a
    claimant is answered (internal/controller/nominatimoperation_mutex.go). */
module WritePlane {
  import opened Names
  import opened Operations

  datatype Decision = Ok | Hold | RaceWait

  datatype Evaluation = Evaluation(
    decision: Decision, peer: Option<Operation>, busyPeer: Option<Operation>)
  {
    predicate ScheduleBusy() {
      busyPeer.Some?
    }
  }

  /** `operationsMutexConflict`; all Operations here live in one namespace. */
  predicate Conflict(a: Operation, b: Operation) {
    && a.name != b.name
    && a.parent == b.parent
    && (IsWriteHeavy(a.opType) || IsWriteHeavy(b.opType))
  }

  predicate HoldsWritePlane(peer: Operation) {
    && IsActive(peer.phase)
    && (peer.phase.Running? || (peer.jobRef.Some? && peer.jobRef.value != ""))
  }

  /** An active peer that `op` may not run beside. */
  predicate Rival(op: Operation, peer: Operation) {
    Conflict(op, peer) && IsActive(peer.phase)
  }

  predicate Outranks(peer: Operation, op: Operation) {
    Rival(op, peer) && !HoldsWritePlane(peer) && Less(peer.name, op.name)
  }

  /** The answer a claimant gets, as a function of the set of peers only. */
  function Decide(op: Operation, peers: set<Operation>): Decision {
    if exists p :: p in peers && Rival(op, p) && HoldsWritePlane(p) then Hold
    else if exists p :: p in peers && Outranks(p, op) then RaceWait
    else Ok
  }

  /** A peer of the same instance at work that may not run beside `op`, on plain data. */
  ghost predicate InTheWay(op: Operation, p: Operation) {
    && p.name != op.name && p.parent == op.parent && p.phase in {Unset, Pending, Running}
    && (op.opType in {Bootstrap, AddRegions, Rebuild, Migrate, Freeze}
        || p.opType in {Bootstrap, AddRegions, Rebuild, Migrate, Freeze})
  }

  /** It is running, or it refers to a Job. */
  ghost predicate HasArmed(p: Operation) {
    p.phase == Running || (p.jobRef != None && p.jobRef != Some(""))
  }

  /** The three answers, for any claimant and any peers whatever. */
  lemma DecisionTable(op: Operation, peers: set<Operation>)
    ensures Decide(op, peers) == Hold <==> exists p :: p in peers && InTheWay(op, p) && HasArmed(p)
    ensures Decide(op, peers) == RaceWait <==>
              && (forall p :: p in peers && InTheWay(op, p) ==> !HasArmed(p))
              && (exists p :: p in peers && InTheWay(op, p) && Less(p.name, op.name))
  {
    forall p: Operation ensures InTheWay(op, p) <==> Rival(op, p) {}
    forall p: Operation | IsActive(p.phase) ensures HoldsWritePlane(p) <==> HasArmed(p) {}
  }

  /** `r` is the first element of `s` satisfying `P`, or None when there is none. */
  ghost predicate IsFirst(s: seq<Operation>, P: Operation -> bool, r: Option<Operation>) {
    match r
    case None => forall i :: 0 <= i < |s| ==> !P(s[i])
    case Some(x) =>
      exists i :: 0 <= i < |s| && s[i] == x && P(x) && forall j :: 0 <= j < i ==> !P(s[j])
  }

  lemma IsFirstExtends(s: seq<Operation>, P: Operation -> bool, r: Option<Operation>, x: Operation)
    requires IsFirst(s, P, r)
    ensures IsFirst(s + [x], P, if r.Some? then r else if P(x) then Some(x) else None)
  {
    var t := s + [x];
    if r.Some? {
      var i :| 0 <= i < |s| && s[i] == r.value && P(r.value) && forall j :: 0 <= j < i ==> !P(s[j]);
      assert t[i] == r.value && forall j :: 0 <= j < i ==> !P(t[j]);
    } else if P(x) {
      assert t[|s|] == x && forall j :: 0 <= j < |s| ==> !P(t[j]);
    }
  }

  /** The single pass over the peers. The decision depends on the set of peers only; the
      peers reported are the first ones of their kind in list order. */
  method EvaluateWritePlane(op: Operation, peers: seq<Operation>) returns (ev: Evaluation)
    ensures ev.decision == Decide(op, set p | p in peers)
    ensures ev.decision.Hold? <==> exists p :: p in peers && Rival(op, p) && HoldsWritePlane(p)
    ensures ev.decision.RaceWait? <==>
              && (forall p :: p in peers && Rival(op, p) ==> !HoldsWritePlane(p))
              && (exists p :: p in peers && Rival(op, p) && Less(p.name, op.name))
    ensures ev.decision.Ok? ==> ev.peer.None?
    ensures ev.decision.Hold? ==> IsFirst(peers, p => Rival(op, p) && HoldsWritePlane(p), ev.peer)
    ensures ev.decision.RaceWait? ==> IsFirst(peers, p => Outranks(p, op), ev.peer)
    ensures IsFirst(peers, p => Rival(op, p), ev.busyPeer)
    ensures ev.ScheduleBusy() <==> exists p :: p in peers && Rival(op, p)
  {
    var busy: Option<Operation> := None;
    var holder: Option<Operation> := None;
    var raceWinner: Option<Operation> := None;
    ghost var isHolder := p => Rival(op, p) && HoldsWritePlane(p);
    ghost var isWinner := p => Outranks(p, op);
    ghost var isRival := p => Rival(op, p);
    for i := 0 to |peers|
      invariant IsFirst(peers[..i], isHolder, holder)
      invariant IsFirst(peers[..i], isWinner, raceWinner)
      invariant IsFirst(peers[..i], isRival, busy)
    {
      var peer := peers[i];
      assert peers[..i + 1] == peers[..i] + [peer];
      IsFirstExtends(peers[..i], isHolder, holder, peer);
      IsFirstExtends(peers[..i], isWinner, raceWinner, peer);
      IsFirstExtends(peers[..i], isRival, busy, peer);
      if !Conflict(op, peer) || !IsActive(peer.phase) {
        continue;
      }
      if busy.None? {
        busy := Some(peer);
      }
      if HoldsWritePlane(peer) {
        if holder.None? {
          holder := Some(peer);
        }
        continue;
      }
      if Less(peer.name, op.name) && raceWinner.None? {
        raceWinner := Some(peer);
      }
    }
    assert peers[..|peers|] == peers;
    if holder.Some? {
      return Evaluation(Hold, holder, busy);
    }
    if raceWinner.Some? {
      return Evaluation(RaceWait, raceWinner, busy);
    }
    return Evaluation(Ok, None, busy);
  }

  /** Reordering or repeating peers changes no decision. */
  lemma DecisionIgnoresOrder(op: Operation, a: seq<Operation>, b: seq<Operation>)
    requires forall p :: p in a <==> p in b
    ensures Decide(op, set p | p in a) == Decide(op, set p | p in b)
  {
    assert (set p | p in a) == (set p | p in b);
  }

  /** Distinctly named active Operations of one instance, none holding: a creation race. */
  ghost predicate CreationRace(racers: set<Operation>) {
    && (forall p :: p in racers ==> IsActive(p.phase) && !HoldsWritePlane(p))
    && (forall p, q :: p in racers && q in racers ==> p.parent == q.parent)
    && (forall p, q :: p in racers && q in racers && p.name == q.name ==> p == q)
  }

  /** The lexicographically least racer is told Ok. */
  lemma RaceHasWinner(racers: set<Operation>) returns (winner: Operation)
    requires racers != {} && CreationRace(racers)
    ensures winner in racers && Decide(winner, racers).Ok?
    ensures forall p :: p in racers && p != winner ==> Less(winner.name, p.name)
  {
    var names := set p | p in racers :: p.name;
    var some :| some in racers;
    assert some.name in names;
    var least := LeastName(names);
    winner :| winner in racers && winner.name == least;
    forall p | p in racers && p != winner ensures Less(winner.name, p.name) && !Less(p.name, winner.name) {
      assert p.name in names && p.name != least;
      LessIsTotal(winner.name, p.name);
    }
    LessIsTotal(winner.name, winner.name);
  }

  /** No two racers told Ok exclude each other. */
  lemma WinnersDoNotConflict(racers: set<Operation>, a: Operation, b: Operation)
    requires CreationRace(racers) && a in racers && b in racers
    requires Decide(a, racers).Ok? && Decide(b, racers).Ok?
    ensures !Conflict(a, b)
  {
    LessIsTotal(a.name, b.name);
    assert !Outranks(a, b) && !Outranks(b, a);
  }

  /** Waiting is well founded: every non-empty set of racers has a member whom no other
      member outranks, so no chain of waits can close on itself. */
  lemma WaitingIsWellFounded(racers: set<Operation>, waiting: set<Operation>) returns (free: Operation)
    requires CreationRace(racers) && waiting <= racers && waiting != {}
    ensures free in waiting && forall p :: p in waiting ==> !Outranks(p, free)
  {
    free := RaceHasWinner(waiting);
    assert Decide(free, waiting).Ok?;
  }
}
