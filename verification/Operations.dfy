/** NominatimOperation objects as the API server stores them, and the predicates on
    their type and phase that every controller shares. */
module Operations {

  datatype Option<+T> = None | Some(value: T)

  /** The CRD enum; `Reserved` stands for any other value. */
  datatype OpType =
    | Bootstrap | AddRegions | Rebuild | Update | CatchUp | Refresh | Migrate | Freeze
    | Reserved

  /** `Unset` is the empty phase of an Operation no pass has written yet. */
  datatype Phase = Unset | Pending | Running | Succeeded | Failed

  datatype Impact = Never | BootstrapRebuild | WriteHeavy | All

  /** `nominatim.zebernst.dev/rebuild-db-reset`. */
  datatype ResetMark = NoReset | ResetPending | ResetDone

  /** `nominatim.zebernst.dev/rebuild-db-prev-uid`: absent, "none", or a UID. */
  datatype PrevUid = NotRecorded | NoneExisted | Dropped(uid: nat)

  datatype Operation = Operation(
    name: string,
    uid: nat,
    parent: string,
    opType: OpType,
    regions: seq<string>,
    phase: Phase,
    jobRef: Option<string>,
    finalizer: bool,
    deleting: bool,
    reset: ResetMark,
    prevUid: PrevUid,
    // History, not stored by Kubernetes: the Database UIDs this Operation has deleted.
    drops: seq<nat>)

  /** What a Job carries of the Operation it was created for: the UID in its owner reference
      and the type and instance its pods were built with. */
  datatype Owner = Owner(uid: nat, opType: OpType, parent: string)

  /** A Job and its status counters. */
  datatype Job = Job(owner: Owner, succeeded: nat, failed: nat, active: nat)

  function OwnerOf(op: Operation): Owner {
    Owner(op.uid, op.opType, op.parent)
  }

  function NewJob(op: Operation): Job {
    Job(OwnerOf(op), 0, 0, 0)
  }

  /** An Operation as it is sent to the API server, which assigns the UID: spec only. */
  function NewOperation(name: string, parent: string, opType: OpType, regions: seq<string>): Operation {
    Operation(name, 0, parent, opType, regions, Unset, None, false, false, NoReset, NotRecorded, [])
  }

  predicate IsWriteHeavy(t: OpType) {
    t.Bootstrap? || t.AddRegions? || t.Rebuild? || t.Migrate? || t.Freeze?
  }

  predicate IsImplemented(t: OpType) {
    !t.Reserved?
  }

  predicate IsActive(phase: Phase) {
    phase.Unset? || phase.Pending? || phase.Running?
  }

  predicate IsTerminal(phase: Phase) {
    phase.Succeeded? || phase.Failed?
  }

  predicate RequiresRegionGate(t: OpType) {
    t.AddRegions? || t.Update? || t.CatchUp?
  }

  predicate ImpactMatches(impact: Impact, t: OpType) {
    match impact
    case All => true
    case WriteHeavy => IsWriteHeavy(t)
    case BootstrapRebuild => t.Bootstrap? || t.Rebuild?
    case Never => false
  }

  function PhaseFromJob(job: Job): Phase {
    if job.succeeded > 0 then Succeeded
    else if job.failed > 0 then Failed
    else if job.active > 0 then Running
    else Pending
  }

  /** The counters of a Job only grow; `active` goes up and down. */
  predicate JobMayBecome(before: Job, after: Job) {
    && before.owner == after.owner
    && before.succeeded <= after.succeeded && before.failed <= after.failed
  }

  predicate JobFinished(job: Job) {
    IsTerminal(PhaseFromJob(job))
  }

  /** Monotone counters never take a Job-derived terminal phase back to an active one.
      A Failed Job may still turn Succeeded: Jobs are created with a back-off limit of 2. */
  lemma TerminalJobStaysTerminal(before: Job, after: Job)
    requires JobMayBecome(before, after)
    ensures JobFinished(before) ==> JobFinished(after)
    ensures PhaseFromJob(before).Succeeded? ==> PhaseFromJob(after).Succeeded?
  {
  }
}
