/** Scheduled Updates: the catch-up loop and the cursor
    (internal/controller/nominatim_updates.go). Times are Unix seconds, which is what cron
    fires on and what the operation name carries. */
module Schedule {
  import opened Names
  import opened Operations
  import opened WritePlane

  type Time = int

  /** time.Time{}: what cron.Schedule.Next returns when it finds no later fire. */
  const ZERO: Time := -62135596800

  /** mostRecentScheduleTime, as a function: any `next` at all may be passed. */
  function MostRecent(next: Time -> Time, last: Time, now: Time): Option<Time>
    decreases now - last
  {
    var t := next(last);
    if t > now then None
    else if t <= last then Some(t)
    else
      match MostRecent(next, t, now)
      case None => Some(t)
      case Some(r) => Some(r)
  }

  /** The loop itself. It terminates for every schedule because it leaves as soon as `next`
      does not advance. */
  method MostRecentScheduleTime(next: Time -> Time, last: Time, now: Time) returns (mostRecent: Option<Time>)
    ensures mostRecent == MostRecent(next, last, now)
  {
    mostRecent := None;
    var previous := last;
    var t := next(previous);
    while t <= now
      invariant t == next(previous)
      invariant MostRecent(next, last, now) ==
                  match MostRecent(next, previous, now) { case None => mostRecent case Some(r) => Some(r) }
      decreases now - previous
    {
      mostRecent := Some(t);
      if t <= previous {
        break;
      }
      previous := t;
      t := next(previous);
    }
  }

  /** From the zero time on, `next` is the schedule that fires at the times in `fires`: the
      least later fire, or the zero time when there is none. */
  ghost predicate Follows(next: Time -> Time, fires: Time -> bool) {
    forall t :: ZERO <= t ==> FollowsAt(next, fires, t)
  }

  /** A schedule that fires every `period` seconds, counted from 1970, such as `0 * * * *`. */
  function Every(period: int): Time -> Time
    requires period > 0
  {
    (t: Time) => t - t % period + period
  }

  /** Periodic schedules follow their fires and never end; the hourly one fires at the zero
      time itself. */
  lemma PeriodicFollows(period: int)
    requires period > 0
    ensures Follows(Every(period), (t: Time) => t % period == 0)
    ensures forall t :: ZERO <= t ==> Every(period)(t) != ZERO
    ensures ZERO % 3600 == 0
  {
    var fires := (t: Time) => t % period == 0;
    forall t | ZERO <= t ensures FollowsAt(Every(period), fires, t) {
      NextMultiple(t, period);
    }
  }

  lemma NextMultiple(t: int, period: int)
    requires period > 0
    ensures var next := t - t % period + period;
            next > t && next % period == 0 && forall u :: t < u < next ==> u % period != 0
  {
    var q := t / period;
    assert t == q * period + t % period && (q + 1) * period == q * period + period;
    SameRest((q + 1) * period, q + 1, period);
    forall u | t < u < (q + 1) * period ensures u % period != 0 {
      assert u == q * period + (u - q * period);
      SameRest(u, q, period);
    }
  }

  /** Division by `period` is unique. */
  lemma SameRest(u: int, q: int, period: int)
    requires period > 0 && q * period <= u < q * period + period
    ensures u % period == u - q * period
  {
    var d := u / period - q;
    Scaled(d, period);
    assert d * period == (u / period) * period - q * period;
    assert u == (u / period) * period + u % period;
  }

  lemma {:induction false} Scaled(d: int, period: int)
    requires period > 0
    ensures d >= 1 ==> d * period >= period
    ensures d <= -1 ==> d * period <= -period
    decreases if d < 0 then -d else d
  {
    if d > 1 {
      Scaled(d - 1, period);
      assert d * period == (d - 1) * period + period;
    } else if d < -1 {
      Scaled(d + 1, period);
      assert d * period == (d + 1) * period - period;
    }
  }

  ghost predicate FollowsAt(next: Time -> Time, fires: Time -> bool, t: Time) {
    if next(t) == ZERO then forall u :: u > t ==> !fires(u)
    else next(t) > t && fires(next(t)) && forall u :: t < u < next(t) ==> !fires(u)
  }

  /** The answer the name promises: the greatest fire in (last, now], or None. */
  ghost predicate IsGreatestFire(fires: Time -> bool, last: Time, now: Time, r: Option<Time>) {
    match r
    case None => forall u :: last < u <= now ==> !fires(u)
    case Some(f) => last < f <= now && fires(f) && forall u :: f < u <= now ==> !fires(u)
  }

  function Later(a: Time, b: Time): Time {
    if a < b then b else a
  }

  lemma {:induction false} ExhaustedLoop(next: Time -> Time, fires: Time -> bool, last: Time, now: Time)
    requires Follows(next, fires) && ZERO <= last && ZERO <= now
    ensures next(Later(last, now)) == ZERO ==> MostRecent(next, last, now) == Some(ZERO)
    ensures next(Later(last, now)) != ZERO ==> IsGreatestFire(fires, last, now, MostRecent(next, last, now))
    decreases now - last
  {
    var t := next(last);
    assert FollowsAt(next, fires, last) && FollowsAt(next, fires, now);
    assert next(now) != ZERO ==> next(now) > now && fires(next(now));
    assert t != ZERO ==> t > last && fires(t);
    if t != ZERO && t <= now {
      ExhaustedLoop(next, fires, t, now);
    }
  }

  /** The loop returns the greatest missed fire exactly when the schedule has a fire after
      both the cursor and the clock. When it has none, Next answers with the zero time, the
      guard against schedules that do not advance leaves the loop, and the zero time itself
      is returned. */
  lemma CatchUpIsRightIff(next: Time -> Time, fires: Time -> bool, last: Time, now: Time)
    requires Follows(next, fires) && ZERO <= last && ZERO <= now
    ensures IsGreatestFire(fires, last, now, MostRecent(next, last, now)) <==> next(Later(last, now)) != ZERO
  {
    ExhaustedLoop(next, fires, last, now);
  }

  // ---------------------------------------------------------------- the cursor

  /** scheduledUpdateOperationName */
  function OperationName(instance: string, fire: Time): string {
    instance + "-update-" + Decimal(fire)
  }

  /** Different fires never share an Operation name. */
  lemma NameIdentifiesFire(instance: string, a: Time, b: Time)
    requires OperationName(instance, a) == OperationName(instance, b)
    ensures a == b
  {
    var prefix := instance + "-update-";
    assert OperationName(instance, a)[|prefix|..] == Decimal(a);
    assert OperationName(instance, b)[|prefix|..] == Decimal(b);
    DecimalInjective(a, b);
  }

  /** The parts of the instance the scheduled-update step reads and writes, its children,
      and (as history) the fires for which it has created an Operation. */
  datatype Updates = Updates(
    instance: string,
    createdAt: Time,
    enabled: bool,
    specRegions: seq<string>,
    regions: seq<string>,
    cursor: Option<Time>,
    ops: map<string, Operation>,
    created: seq<Time>)

  /** scheduleCursor; an instance read from the API always has a creation time. */
  function Cursor(s: Updates): Time {
    match s.cursor
    case Some(t) => t
    case None => s.createdAt
  }

  function Probe(instance: string): Operation {
    NewOperation("__schedule-probe__", instance, Update, [])
  }

  predicate Busy(s: Updates) {
    exists p :: p in s.ops.Values && Rival(Probe(s.instance), p)
  }

  /** No updates are wanted, or Bootstrap has not finished. */
  predicate Idle(s: Updates) {
    !s.enabled || s.regions == []
  }

  /** regionsForUpdate */
  function UpdateRegions(regions: seq<string>, specRegions: seq<string>): seq<string> {
    if regions != [] then regions else specRegions
  }

  function ScheduledUpdate(s: Updates, fire: Time): Operation {
    NewOperation(OperationName(s.instance, fire), s.instance, Update, UpdateRegions(s.regions, s.specRegions))
  }

  /** reconcileUpdates. `lost` says that the status write that should have stored the cursor
      at the end of the instance pass did not happen. */
  function Pass(s: Updates, next: Time -> Time, now: Time, lost: bool): Updates {
    if Idle(s) then s
    else
      match MostRecent(next, Cursor(s), now)
      case None => s
      case Some(fire) =>
        if Busy(s) then s
        else
          var op := ScheduledUpdate(s, fire);
          var s1 := if lost then s else s.(cursor := Some(fire));
          if op.name in s.ops then s1
          else s1.(ops := s.ops[op.name := op], created := s.created + [fire])
  }

  /** The instance controller's own copy of the step. */
  class Scheduler {
    const instance: string
    const createdAt: Time
    const enabled: bool
    const specRegions: seq<string>
    var regions: seq<string>
    var cursor: Option<Time>
    var ops: map<string, Operation>
    ghost var created: seq<Time>

    ghost function View(): Updates
      reads this
    {
      Updates(instance, createdAt, enabled, specRegions, regions, cursor, ops, created)
    }

    constructor (instance: string, createdAt: Time, enabled: bool, specRegions: seq<string>)
      ensures View() == Updates(instance, createdAt, enabled, specRegions, [], None, map[], [])
    {
      this.instance, this.createdAt, this.enabled, this.specRegions := instance, createdAt, enabled, specRegions;
      regions, cursor, ops, created := [], None, map[], [];
    }

    method ListOperations() returns (peers: seq<Operation>)
      ensures forall p :: p in peers <==> p in ops.Values
    {
      peers := [];
      var rest := ops.Keys;
      while rest != {}
        invariant rest <= ops.Keys
        invariant forall p :: p in peers ==> p in ops.Values
        invariant forall n :: n in ops && n !in rest ==> ops[n] in peers
        decreases rest
      {
        var n :| n in rest;
        rest := rest - {n};
        peers := peers + [ops[n]];
      }
      forall p | p in ops.Values ensures p in peers {
        var n :| n in ops && ops[n] == p;
      }
    }

    method ReconcileUpdates(next: Time -> Time, now: Time, lost: bool)
      modifies this
      ensures View() == Pass(old(View()), next, now, lost)
    {
      if !enabled || |regions| == 0 {
        return;
      }
      var last := if cursor.Some? then cursor.value else createdAt;
      var missed := MostRecentScheduleTime(next, last, now);
      if missed.None? {
        return;
      }
      var peers := ListOperations();
      var ev := EvaluateWritePlane(Probe(instance), peers);
      if ev.ScheduleBusy() {
        return;
      }
      var name := OperationName(instance, missed.value);
      if name !in ops {
        ops := ops[name := NewOperation(name, instance, Update, UpdateRegions(regions, specRegions))];
        created := created + [missed.value];
      }
      if !lost {
        cursor := missed;
      }
    }
  }

  /** A pass over the scheduler, or anything else happening to the observed regions and to
      the listed Operations short of their removal. */
  datatype Event =
    | UpdatePass(now: Time, lost: bool)
    | OperationChanged(name: string, op: Operation)
    | RegionsObserved(regions: seq<string>)

  function Step(s: Updates, next: Time -> Time, e: Event): Updates {
    match e
    case UpdatePass(now, lost) => Pass(s, next, now, lost)
    case OperationChanged(n, op) => s.(ops := s.ops[n := op])
    case RegionsObserved(regions) => s.(regions := regions)
  }

  function Play(s: Updates, next: Time -> Time, events: seq<Event>): Updates {
    if events == [] then s
    else Step(Play(s, next, events[..|events| - 1]), next, events[|events| - 1])
  }

  ghost predicate Recorded(s: Updates) {
    && (forall i :: 0 <= i < |s.created| ==> OperationName(s.instance, s.created[i]) in s.ops)
    && (forall i, j :: 0 <= i < j < |s.created| ==> s.created[i] != s.created[j])
  }

  lemma PassKeepsRecorded(s: Updates, next: Time -> Time, now: Time, lost: bool)
    requires Recorded(s)
    ensures Recorded(Pass(s, next, now, lost))
  {
    hide MostRecent, OperationName, Busy;
    var r := MostRecent(next, Cursor(s), now);
    if !Idle(s) && r.Some? && OperationName(s.instance, r.value) !in s.ops {
      assert r.value !in s.created;
    }
  }

  /** Each fire yields at most one Operation over any run, for any schedule and any pattern
      of lost cursor writes, as long as the Operation stays listed. */
  lemma {:induction false} OneOperationPerFire(s: Updates, next: Time -> Time, events: seq<Event>)
    requires Recorded(s)
    ensures Recorded(Play(s, next, events))
  {
    hide Step;
    if events != [] {
      OneOperationPerFire(s, next, events[..|events| - 1]);
      var t, e := Play(s, next, events[..|events| - 1]), events[|events| - 1];
      StepKeepsRecorded(t, next, e);
    }
  }

  lemma StepKeepsRecorded(s: Updates, next: Time -> Time, e: Event)
    requires Recorded(s)
    ensures Recorded(Step(s, next, e))
  {
    if e.UpdatePass? { PassKeepsRecorded(s, next, e.now, e.lost); }
  }

  /** What one pass does to the cursor, whatever the clock says, for a schedule that has a
      fire after cursor and clock: it only moves forward and stops at the clock; a pass that is
      neither idle nor busy nor lost leaves no fire between cursor and clock; an idle or busy
      pass changes nothing. */
  lemma CursorStep(s: Updates, next: Time -> Time, fires: Time -> bool, now: Time, lost: bool)
    requires Follows(next, fires) && ZERO <= Cursor(s) && ZERO <= now && next(Later(Cursor(s), now)) != ZERO
    ensures var t := Pass(s, next, now, lost);
            && Cursor(s) <= Cursor(t) <= Later(Cursor(s), now)
            && (Idle(s) || Busy(s) ==> t == s)
            && (!Idle(s) && !Busy(s) && !lost ==> forall u :: Cursor(t) < u <= now ==> !fires(u))
            && (t.created != s.created ==>
                  && |t.created| == |s.created| + 1
                  && var fire := t.created[|s.created|];
                     && Cursor(s) < fire <= now && fires(fire)
                     && t.ops.Keys == s.ops.Keys + {OperationName(s.instance, fire)})
  {
    hide OperationName, Busy;
    ExhaustedLoop(next, fires, Cursor(s), now);
  }

  /** A pass moves the cursor back exactly when it is neither idle nor busy nor lost and the
      schedule has no fire after cursor and clock: then the cursor is the zero time. */
  lemma CursorGoesBackIff(s: Updates, next: Time -> Time, fires: Time -> bool, now: Time, lost: bool)
    requires Follows(next, fires) && ZERO < Cursor(s) && ZERO <= now
    ensures var t := Pass(s, next, now, lost);
            && (Cursor(t) < Cursor(s) <==>
                  !Idle(s) && !Busy(s) && !lost && next(Later(Cursor(s), now)) == ZERO)
            && (Cursor(t) < Cursor(s) ==> Cursor(t) == ZERO)
  {
    hide OperationName, Busy;
    ExhaustedLoop(next, fires, Cursor(s), now);
  }

  ghost predicate Clocked(events: seq<Event>) {
    forall i :: 0 <= i < |events| && events[i].UpdatePass? ==> ZERO <= events[i].now
  }

  /** Over any run under a schedule that never ends, with clocks that jump in both directions
      and cursor writes that are lost, the cursor never goes back. */
  lemma {:induction false} CursorNeverGoesBack(s: Updates, next: Time -> Time, fires: Time -> bool, events: seq<Event>)
    requires Follows(next, fires) && ZERO <= Cursor(s) && Clocked(events)
    requires forall t :: ZERO <= t ==> next(t) != ZERO
    ensures Cursor(s) <= Cursor(Play(s, next, events))
  {
    hide Pass, Cursor;
    if events != [] {
      var before, e := events[..|events| - 1], events[|events| - 1];
      CursorNeverGoesBack(s, next, fires, before);
      var t := Play(s, next, before);
      if e.UpdatePass? {
        CursorStep(t, next, fires, e.now, e.lost);
      } else {
        OthersKeepCursor(t, next, e);
      }
    }
  }

  lemma OthersKeepCursor(s: Updates, next: Time -> Time, e: Event)
    requires !e.UpdatePass?
    ensures Cursor(Step(s, next, e)) == Cursor(s)
  {
  }

  // ---------------------------------------------------------------- what a pass creates

  /** A write-heavy Operation of the instance is at work. */
  ghost predicate HeavyWork(s: Updates) {
    exists n :: n in s.ops && s.ops[n].parent == s.instance && s.ops[n].name != "__schedule-probe__"
                && (s.ops[n].opType in {Bootstrap, AddRegions, Rebuild, Migrate, Freeze})
                && (s.ops[n].phase in {Unset, Pending, Running})
  }

  lemma BusyIsHeavyWork(s: Updates)
    ensures Busy(s) <==> HeavyWork(s)
  {
    if Busy(s) {
      var p :| p in s.ops.Values && Rival(Probe(s.instance), p);
      var n :| n in s.ops && s.ops[n] == p;
      assert HeavyWork(s);
    }
    if n :| n in s.ops && s.ops[n].parent == s.instance && s.ops[n].name != "__schedule-probe__"
            && (s.ops[n].opType in {Bootstrap, AddRegions, Rebuild, Migrate, Freeze})
            && (s.ops[n].phase in {Unset, Pending, Running}) {
      assert s.ops[n] in s.ops.Values && Rival(Probe(s.instance), s.ops[n]);
    }
  }

  /** Where the schedule stands: the last recorded fire, or the creation of the instance. */
  function Since(s: Updates): Time {
    if s.cursor == None then s.createdAt else s.cursor.value
  }

  /** A pass that finds updates enabled, regions observed, no write-heavy work and a missed fire
      has the Operation of the greatest one stored afterwards: the one that was listed already,
      or a new, untouched Update of this instance over its observed regions. It sets the
      cursor to that fire unless the write is lost, and does nothing else. */
  lemma FireIsServed(s: Updates, next: Time -> Time, fires: Time -> bool, now: Time, lost: bool, fire: Time)
    requires Follows(next, fires) && ZERO <= Since(s) && ZERO <= now && next(Later(Since(s), now)) != ZERO
    requires s.enabled && s.regions != [] && !HeavyWork(s)
    requires Since(s) < fire <= now && fires(fire) && forall u :: fire < u <= now ==> !fires(u)
    ensures var t := Pass(s, next, now, lost);
            var name := s.instance + "-update-" + Decimal(fire);
            && name in t.ops
            && (name in s.ops ==> t.ops == s.ops && t.created == s.created)
            && (name !in s.ops ==>
                  && t.created == s.created + [fire] && t.ops == s.ops[name := t.ops[name]]
                  && var op := t.ops[name];
                     && op.name == name && op.parent == s.instance && op.opType == Update && op.regions == s.regions
                     && op.phase == Unset && op.jobRef == None && !op.finalizer && !op.deleting)
            && t == s.(cursor := if lost then s.cursor else Some(fire), ops := t.ops, created := t.created)
  {
    BusyIsHeavyWork(s);
    hide Busy, HeavyWork, Decimal;
    ExhaustedLoop(next, fires, Cursor(s), now);
  }

  /** Any other pass changes nothing. */
  lemma OtherPassesDoNothing(s: Updates, next: Time -> Time, fires: Time -> bool, now: Time, lost: bool)
    requires Follows(next, fires) && ZERO <= Since(s) && ZERO <= now && next(Later(Since(s), now)) != ZERO
    requires !s.enabled || s.regions == [] || HeavyWork(s) || forall u :: Since(s) < u <= now ==> !fires(u)
    ensures Pass(s, next, now, lost) == s
  {
    BusyIsHeavyWork(s);
    hide OperationName, Busy, HeavyWork;
    ExhaustedLoop(next, fires, Cursor(s), now);
  }

  /** The fire the cursor stands at has its Operation. */
  ghost predicate Backed(s: Updates) {
    s.cursor != None ==> OperationName(s.instance, s.cursor.value) in s.ops
  }

  lemma StepKeepsBacked(s: Updates, next: Time -> Time, e: Event)
    requires Backed(s)
    ensures Backed(Step(s, next, e)) && Step(s, next, e).instance == s.instance
    ensures forall n :: n in s.ops ==> n in Step(s, next, e).ops
  {
    hide OperationName, Busy, MostRecent;
  }

  /** Over any run, for any schedule: every fire the cursor ever stood at has its Operation
      stored, however many cursor writes were lost. */
  lemma {:induction false} EveryFireIsServed(s: Updates, next: Time -> Time, events: seq<Event>, k: nat)
    requires Backed(s) && k <= |events|
    ensures var u := Play(s, next, events[..k]);
            u.cursor != None ==> OperationName(s.instance, u.cursor.value) in Play(s, next, events).ops
    ensures Backed(Play(s, next, events)) && Play(s, next, events).instance == s.instance
  {
    hide Step, OperationName;
    if k < |events| {
      var before := events[..|events| - 1];
      assert before[..k] == events[..k];
      EveryFireIsServed(s, next, before, k);
      StepKeepsBacked(Play(s, next, before), next, events[|events| - 1]);
    } else {
      assert events[..k] == events;
      PlayKeepsBacked(s, next, events);
    }
  }

  lemma {:induction false} PlayKeepsBacked(s: Updates, next: Time -> Time, events: seq<Event>)
    requires Backed(s)
    ensures Backed(Play(s, next, events)) && Play(s, next, events).instance == s.instance
  {
    hide Step, OperationName;
    if events != [] {
      PlayKeepsBacked(s, next, events[..|events| - 1]);
      StepKeepsBacked(Play(s, next, events[..|events| - 1]), next, events[|events| - 1]);
    }
  }
}
