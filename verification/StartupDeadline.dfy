/** The startup deadline of a job: a STOP armed when it starts running, deleted when its tunnel comes up. */
module StartupDeadline {
  import opened Prelude

  /** An op of a job. */
  datatype Endpoint = Endpoint(job: string, op: string)

  /** The job of a deployment that a targeted STOP is for. */
  datatype Target = Target(deployment: string, job: string)

  /** A stored targeted STOP; `startup` tells a startup deadline from any other, `pending` is false while it is processed. */
  datatype Stop = Stop(target: Target, dueAt: int, startup: bool, pending: bool)

  type Stops = map<nat, Stop>

  /** The tunnels that are up, each with the deployment its registration named, if it named one. */
  type Tunnels = map<Endpoint, Option<string>>

  predicate Online(up: Tunnels, job: string) { exists e :: e in up && e.job == job }

  /** A STOP not yet due has not been picked up, so it can be deleted. */
  predicate Cancellable(stop: Stop, target: Target, now: int) {
    stop.target == target && stop.pending && stop.dueAt > now
  }

  /** Every stop of the target that can be cancelled is gone. */
  function Disarmed(stops: Stops, target: Target, now: int): Stops {
    map id | id in stops && !Cancellable(stops[id], target, now) :: stops[id]
  }

  /** A pending stop keeps a second one from being scheduled. */
  predicate HasPending(stops: Stops, target: Target) {
    exists id :: id in stops && stops[id].target == target && stops[id].pending
  }

  /** A registration's record of its tunnel, which needs the job and the op but no deployment. */
  function Registered(up: Tunnels, job: string, op: Option<string>, deployment: Option<string>): Tunnels {
    if op.Some? then up[Endpoint(job, op.value) := deployment] else up
  }

  /** The stored endpoint states, targeted stops and markers. */
  class DeadlineStore {
    var up: Tunnels
    var stops: Stops
    var markers: map<Target, int>

    constructor ()
      ensures up == map[] && stops == map[] && markers == map[]
    {
      up, stops, markers := map[], map[], map[];
    }

    /** Cancel an armed stop; the marker says whether it was a startup deadline. One already due is left, marker and all. */
    method DisarmStartupDeadline(target: Target, now: int) returns (cancelled: bool, startup: bool)
      modifies this
      ensures up == old(up) && stops == Disarmed(old(stops), target, now)
      ensures forall id :: id in stops <==>
                id in old(stops)
                && !(old(stops)[id].target == target && old(stops)[id].pending && now < old(stops)[id].dueAt)
      ensures forall id :: id in stops ==> stops[id] == old(stops)[id]
      ensures cancelled <==> stops != old(stops)
      ensures markers == if cancelled then old(markers) - {target} else old(markers)
      ensures startup <==> cancelled && target in old(markers)
    {
      cancelled, startup := false, false;
      var matched := map id | id in stops && stops[id].target == target && stops[id].pending && stops[id].dueAt > now :: stops[id];
      stops := stops - matched.Keys;
      if |matched| == 0 {
        assert forall id :: id in old(stops) ==> id !in matched;
        return;
      }
      assert exists id :: id in matched;
      cancelled, startup := true, target in markers;
      markers := markers - {target};
    }

    /**
     * Arm the deadline, unless the deployment has no deadline or nothing to
     * register, or the job is being stopped already. A job found online is
     * disarmed again.
     */
    method ArmStartupDeadline(target: Target, timeoutMinutes: Option<nat>, endpoints: nat, id: nat, now: int, later: int)
      requires now <= later && id !in stops
      modifies this
      ensures up == old(up)
      ensures timeoutMinutes.None? || timeoutMinutes == Some(0) || endpoints == 0
              || (exists stop :: stop in old(stops).Values && stop.target == target && stop.pending) ==>
                stops == old(stops) && markers == old(markers)
      ensures timeoutMinutes.Some? && timeoutMinutes.value > 0 && endpoints > 0
              && !(exists stop :: stop in old(stops).Values && stop.target == target && stop.pending) ==>
                if (exists e :: e in up && e.job == target.job) && now + timeoutMinutes.value * 60_000 > later then
                  stops == old(stops) && markers == old(markers) - {target}
                else
                  stops == old(stops)[id := Stop(target, now + timeoutMinutes.value * 60_000, true, true)]
                  && markers == old(markers)[target := now + timeoutMinutes.value * 60_000]
    {
      if timeoutMinutes.None? || timeoutMinutes.value == 0 { return; }
      if endpoints == 0 { return; }
      var dueAt := now + timeoutMinutes.value * 60_000;
      if exists other :: other in stops && stops[other].target == target && stops[other].pending { return; }
      stops := stops[id := Stop(target, dueAt, true, true)];
      markers := markers[target := dueAt];
      if exists e :: e in up && e.job == target.job {
        assert Cancellable(stops[id], target, later) <==> dueAt > later;
        var cancelled, startup := DisarmStartupDeadline(target, later);
        assert cancelled ==> stops == old(stops);
      }
    }

    /**
     * A tunnel came up. It is recorded as soon as the job and the op are known;
     * only a registration that names the deployment too goes on to cancel its
     * job's stop. True when a lost tunnel recovered.
     */
    method FrpsRegisterHandler(deployment: Option<string>, job: Option<string>, op: Option<string>, now: int)
      returns (recovered: bool)
      modifies this
      ensures up == if job.Some? && op.Some? then old(up)[Endpoint(job.value, op.value) := deployment] else old(up)
      ensures deployment.None? || job.None? ==> stops == old(stops) && markers == old(markers) && !recovered
      ensures deployment.Some? && job.Some? ==>
                var target := Target(deployment.value, job.value);
                && stops == Disarmed(old(stops), target, now)
                && (forall id :: id in stops <==>
                      id in old(stops)
                      && !(old(stops)[id].target == target && old(stops)[id].pending && now < old(stops)[id].dueAt))
                && (recovered <==> target !in old(markers) && stops != old(stops))
    {
      recovered := false;
      if job.Some? && op.Some? { up := up[Endpoint(job.value, op.value) := deployment]; }
      if deployment.None? || job.None? { return; }
      var cancelled, startup := DisarmStartupDeadline(Target(deployment.value, job.value), now);
      recovered := cancelled && !startup;
    }

    /** A longer timeout pushes every pending stop of a running job out, as it does the job's other follow-ups. */
    method PostponeFollowUps(target: Target, deltaMs: int)
      requires deltaMs > 0
      modifies this
      ensures up == old(up) && markers == old(markers) && stops.Keys == old(stops).Keys
      ensures forall id :: id in stops ==>
                stops[id] == if old(stops)[id].target == target && old(stops)[id].pending
                             then old(stops)[id].(dueAt := old(stops)[id].dueAt + deltaMs) else old(stops)[id]
    {
      stops := map id | id in stops ::
        if stops[id].target == target && stops[id].pending then stops[id].(dueAt := stops[id].dueAt + deltaMs)
        else stops[id];
    }
  }
}

/**
 * Arming, registration, unregistration, market and timeout changes of any number of
 * jobs and the queue's own writes, interleaved step by step; any handler may fail.
 */
module DeadlineSafety {
  import opened Prelude
  import opened StartupDeadline

  /**
   * A handler on its way: an arm about to insert, mark, read or disarm; a register
   * about to record or disarm; an unregister about to record or schedule; a market
   * change about to disarm or to stop the job; a timeout change about to write the
   * due time it worked out. `graces` says the tunnel was lost and its deployment is
   * one to act on.
   */
  datatype Handler =
    | Inserting(target: Target, dueAt: int)
    | Marking(target: Target)
    | Reading(target: Target)
    | Recording(deployment: Option<string>, job: string, op: Option<string>)
    | Disarming(target: Target)
    | Losing(deployment: Option<string>, job: string, op: Option<string>, graces: bool)
    | Gracing(target: Target)
    | Stopping(target: Target)
    | Postponing(stop: nat, dueAt: int)

  /**
   * A stop's history: when it was first due, whether it was ever claimed, how many
   * disarms of its target were under way when it was scheduled or set going since,
   * how many of those ended without cancelling it, and whether its due time was
   * written again after the last of these.
   */
  datatype Past = Past(deadline: int, claimed: bool, calls: nat, misses: nat, revived: bool)

  /**
   * `past` keeps every stop ever scheduled. `registered` are the jobs with any
   * registration, `displaced` the targets a market change set a disarm going for,
   * `failed` those with an arm or a disarm that failed midway. These four are
   * history, stored nowhere.
   */
  datatype State = State(
    up: Tunnels, stops: Stops, handlers: map<nat, Handler>, past: map<nat, Past>,
    registered: set<string>, displaced: set<Target>, failed: set<Target>, now: int)

  datatype Event =
    | Start(id: nat, handler: Handler)
    | Move(id: nat, graceMs: nat, stop: nat)
    | Fail(id: nat)
    | Claimed(stop: nat)
    | Returned(stop: nat, dueAt: int)
    | Removed(stop: nat)
    | Tick(now: int)

  /** What sets a handler going: a RUNNING job, a tunnel up or down, a new market, a longer timeout. */
  predicate CanStart(s: State, handler: Handler) {
    match handler
    case Marking(_) => false
    case Reading(_) => false
    case Gracing(_) => false
    case Postponing(stop, dueAt) => stop in s.stops && s.stops[stop].pending && dueAt > s.stops[stop].dueAt
    case _ => true
  }

  /** Only a claimed stop is handed back or retried. */
  predicate Enabled(s: State, e: Event) {
    match e
    case Start(id, handler) => id !in s.handlers && CanStart(s, handler)
    case Move(id, _, stop) => id in s.handlers && stop !in s.past
    case Fail(id) => id in s.handlers
    case Claimed(stop) => stop in s.stops && stop in s.past && s.stops[stop].pending && s.stops[stop].dueAt <= s.now
    case Returned(stop, dueAt) => stop in s.stops && stop in s.past && s.past[stop].claimed && s.now <= dueAt
    case Removed(_) => true
    case Tick(now) => s.now <= now
  }

  function Going(s: State, id: nat, handler: Handler): State { s.(handlers := s.handlers[id := handler]) }

  function Done(s: State, id: nat): State { s.(handlers := s.handlers - {id}) }

  function Disarms(handlers: map<nat, Handler>, target: Target): set<nat> {
    set id | id in handlers && handlers[id] == Disarming(target)
  }

  predicate DisarmUnderWay(s: State, target: Target) { Disarms(s.handlers, target) != {} }

  predicate IsArm(handler: Handler, target: Target) { handler == Marking(target) || handler == Reading(target) }

  /** An arm that inserted its stop and has not read the tunnels yet. */
  predicate ArmUnderWay(s: State, target: Target) { exists id :: id in s.handlers && IsArm(s.handlers[id], target) }

  function Inserted(s: State, stop: nat, target: Target, dueAt: int, startup: bool): State {
    s.(stops := s.stops[stop := Stop(target, dueAt, startup, true)],
       past := s.past[stop := Past(dueAt, false, |Disarms(s.handlers, target)|, 0, false)])
  }

  /** A disarm of the target is set going. */
  function Called(s: State, target: Target): State {
    s.(past := map i | i in s.past ::
         if i in s.stops && s.stops[i].target == target then s.past[i].(calls := s.past[i].calls + 1) else s.past[i])
  }

  /** A disarm of the target is over, and the stops still there were missed. */
  function Missed(s: State, target: Target): State {
    s.(past := map i | i in s.past ::
         if i in s.stops && s.stops[i].target == target then s.past[i].(misses := s.past[i].misses + 1, revived := false)
         else s.past[i])
  }

  /** A stop's due time written over, whatever its status, if it is still there. */
  function Rewritten(s: State, stop: nat, dueAt: int): State {
    if stop in s.stops && stop in s.past then
      s.(stops := s.stops[stop := s.stops[stop].(dueAt := dueAt)],
         past := s.past[stop := s.past[stop].(revived := s.past[stop].misses > 0)])
    else s
  }

  /** A handler's next write, or read; `stop` is the id of a stop it inserts. */
  function Moved(s: State, id: nat, graceMs: nat, stop: nat): State
    requires id in s.handlers
  {
    match s.handlers[id]
    case Inserting(target, dueAt) =>
      if HasPending(s.stops, target) then Done(s, id)
      else Going(Inserted(s, stop, target, dueAt, true), id, Marking(target))
    case Marking(target) => Going(s, id, Reading(target))
    case Reading(target) =>
      if Online(s.up, target.job) then Going(Called(s, target), id, Disarming(target)) else Done(s, id)
    case Recording(deployment, job, op) =>
      var t := s.(up := Registered(s.up, job, op, deployment), registered := s.registered + {job});
      if deployment.None? then Done(t, id)
      else Going(Called(t, Target(deployment.value, job)), id, Disarming(Target(deployment.value, job)))
    case Disarming(target) => Done(Missed(s.(stops := Disarmed(s.stops, target, s.now)), target), id)
    case Losing(deployment, job, op, graces) =>
      var t := s.(up := if op.Some? then s.up - {Endpoint(job, op.value)} else s.up);
      if graces && deployment.Some? then Going(t, id, Gracing(Target(deployment.value, job))) else Done(t, id)
    case Gracing(target) =>
      if HasPending(s.stops, target) then Done(s, id) else Done(Inserted(s, stop, target, s.now + graceMs, false), id)
    case Stopping(target) => Done(Inserted(s, stop, target, s.now, false), id)
    case Postponing(other, dueAt) => Done(Rewritten(s, other, dueAt), id)
  }

  function Started(s: State, id: nat, handler: Handler): State {
    if handler.Disarming? then
      Going(Called(s, handler.target), id, handler).(displaced := s.displaced + {handler.target})
    else Going(s, id, handler)
  }

  /** A handler ends where it was. */
  function Failed(s: State, id: nat): State
    requires id in s.handlers
  {
    match s.handlers[id]
    case Disarming(target) => Done(Missed(s, target), id).(failed := s.failed + {target})
    case Marking(target) => Done(s, id).(failed := s.failed + {target})
    case Reading(target) => Done(s, id).(failed := s.failed + {target})
    case _ => Done(s, id)
  }

  function Next(s: State, e: Event): State
    requires Enabled(s, e)
  {
    match e
    case Start(id, handler) => Started(s, id, handler)
    case Move(id, graceMs, stop) => Moved(s, id, graceMs, stop)
    case Fail(id) => Failed(s, id)
    case Claimed(stop) =>
      s.(stops := s.stops[stop := s.stops[stop].(pending := false)], past := s.past[stop := s.past[stop].(claimed := true)])
    case Returned(stop, dueAt) =>
      var t := Rewritten(s, stop, dueAt);
      t.(stops := t.stops[stop := t.stops[stop].(pending := true)])
    case Removed(stop) => s.(stops := s.stops - {stop})
    case Tick(now) => s.(now := now)
  }

  function Initial(now: int): State { State(map[], map[], map[], map[], {}, {}, {}, now) }

  predicate IsRun(s: State, events: seq<Event>)
    decreases |events|
  {
    events != [] ==> Enabled(s, events[0]) && IsRun(Next(s, events[0]), events[1..])
  }

  function Final(s: State, events: seq<Event>): State
    requires IsRun(s, events)
    decreases |events|
  {
    if events == [] then s else Final(Next(s, events[0]), events[1..])
  }

  /** A startup STOP that can still be cancelled, for a job that is online. */
  predicate Doomed(s: State, stop: nat) {
    && stop in s.stops && stop in s.past && s.stops[stop].startup
    && Cancellable(s.stops[stop], s.stops[stop].target, s.now) && Online(s.up, s.stops[stop].target.job)
  }

  /** Something is on its way to cancel the target's stops. */
  predicate Rescued(s: State, target: Target) { ArmUnderWay(s, target) || DisarmUnderWay(s, target) }

  /** No tunnel of the job that is up was registered under its deployment. */
  predicate OnlyUnnamedUp(s: State, target: Target) {
    forall e :: e in s.up && e.job == target.job ==> s.up[e] != Some(target.deployment)
  }

  /** Disarms set going are under way or over; a stop missed while due or claimed stays so until its due time is written. */
  predicate CountOk(s: State, stop: Stop, past: Past) {
    && |Disarms(s.handlers, stop.target)| + past.misses == past.calls
    && (past.misses > 0 && !past.revived && stop.target !in s.failed ==> !Cancellable(stop, stop.target, s.now))
  }

  /** A startup stop no disarm was set going for, and whose arm has read, saw no tunnel under its deployment come up. */
  predicate UpOk(s: State, stop: Stop, past: Past) {
    stop.startup && past.calls == 0 && stop.target !in s.failed && !ArmUnderWay(s, stop.target) ==> OnlyUnnamedUp(s, stop.target)
  }

  predicate TimeOk(s: State, stop: Stop, past: Past) {
    && past.deadline <= stop.dueAt
    && (past.claimed ==> past.deadline <= s.now) && (!stop.pending ==> past.claimed)
  }

  ghost predicate StopOk(s: State, id: nat) {
    id in s.stops ==>
      id in s.past && CountOk(s, s.stops[id], s.past[id]) && UpOk(s, s.stops[id], s.past[id]) && TimeOk(s, s.stops[id], s.past[id])
  }

  ghost predicate HandlerOk(s: State, handler: Handler) {
    && (handler.Disarming? ==> handler.target.job in s.registered || handler.target in s.displaced)
    && (handler.Postponing? ==> handler.stop in s.past && s.past[handler.stop].deadline <= handler.dueAt)
  }

  ghost predicate Inv(s: State) {
    && (forall id :: StopOk(s, id))
    && (forall id :: id in s.handlers ==> HandlerOk(s, s.handlers[id]))
    && (forall e :: e in s.up ==> e.job in s.registered)
  }

  predicate Same(before: map<nat, Handler>, after: map<nat, Handler>, id: nat) {
    (id in after <==> id in before) && (id in before ==> after[id] == before[id])
  }

  /** All handlers but one are the same before and after. */
  ghost predicate SameBut(before: map<nat, Handler>, after: map<nat, Handler>, id: nat) {
    forall other :: other != id ==> Same(before, after, other)
  }

  lemma CountChanges(before: set<nat>, after: set<nat>, id: nat)
    requires forall other :: other != id ==> (other in before <==> other in after)
    ensures |after| + (if id in before then 1 else 0) == |before| + if id in after then 1 else 0
  {
    var rest := before - {id};
    assert after == rest + if id in after then {id} else {};
    assert before == rest + if id in before then {id} else {};
  }

  lemma DisarmsAfter(before: map<nat, Handler>, after: map<nat, Handler>, id: nat, target: Target)
    requires SameBut(before, after, id)
    ensures var was, runs := id in Disarms(before, target), id in Disarms(after, target);
      |Disarms(after, target)| + (if was then 1 else 0) == |Disarms(before, target)| + if runs then 1 else 0
  {
    forall other | other != id ensures other in Disarms(before, target) <==> other in Disarms(after, target) {
      assert Same(before, after, other);
    }
    CountChanges(Disarms(before, target), Disarms(after, target), id);
  }

  lemma ArmsAfter(before: State, after: State, id: nat, target: Target)
    requires SameBut(before.handlers, after.handlers, id)
    ensures ArmUnderWay(before, target) && !(id in before.handlers && IsArm(before.handlers[id], target)) ==>
              ArmUnderWay(after, target)
    ensures id in after.handlers && IsArm(after.handlers[id], target) ==> ArmUnderWay(after, target)
  {
    if ArmUnderWay(before, target) && !(id in before.handlers && IsArm(before.handlers[id], target)) {
      var other :| other in before.handlers && IsArm(before.handlers[other], target);
      assert Same(before.handlers, after.handlers, other);
      assert other in after.handlers && IsArm(after.handlers[other], target);
    }
  }

  /** A handler that starts, goes on or ends leaves every other handler on its way. */
  lemma OthersStay(before: State, after: State, id: nat, target: Target)
    requires SameBut(before.handlers, after.handlers, id)
    ensures var was, runs := id in Disarms(before.handlers, target), id in Disarms(after.handlers, target);
      |Disarms(after.handlers, target)| + (if was then 1 else 0) == |Disarms(before.handlers, target)| + if runs then 1 else 0
    ensures ArmUnderWay(before, target) && !(id in before.handlers && IsArm(before.handlers[id], target)) ==>
              ArmUnderWay(after, target)
    ensures id in after.handlers && IsArm(after.handlers[id], target) ==> ArmUnderWay(after, target)
  {
    DisarmsAfter(before.handlers, after.handlers, id, target);
    ArmsAfter(before, after, id, target);
  }

  lemma InsertKeeps(s: State, id: nat, graceMs: nat, stop: nat, i: nat)
    requires Inv(s) && Enabled(s, Move(id, graceMs, stop))
    requires s.handlers[id].Inserting? || s.handlers[id].Gracing? || s.handlers[id].Stopping?
    ensures StopOk(Moved(s, id, graceMs, stop), i)
  {
    var t := Moved(s, id, graceMs, stop);
    assert StopOk(s, i);
    if i in t.stops { OthersStay(s, t, id, t.stops[i].target); }
  }

  lemma ArmKeeps(s: State, id: nat, graceMs: nat, stop: nat, i: nat)
    requires Inv(s) && Enabled(s, Move(id, graceMs, stop)) && (s.handlers[id].Marking? || s.handlers[id].Reading?)
    ensures StopOk(Moved(s, id, graceMs, stop), i)
  {
    var t := Moved(s, id, graceMs, stop);
    assert StopOk(s, i);
    if i in s.stops { OthersStay(s, t, id, s.stops[i].target); }
  }

  lemma RecordKeeps(s: State, id: nat, graceMs: nat, stop: nat, i: nat)
    requires Inv(s) && Enabled(s, Move(id, graceMs, stop)) && (s.handlers[id].Recording? || s.handlers[id].Losing?)
    ensures StopOk(Moved(s, id, graceMs, stop), i)
  {
    var t := Moved(s, id, graceMs, stop);
    assert StopOk(s, i);
    if i in s.stops { OthersStay(s, t, id, s.stops[i].target); }
  }

  lemma DisarmKeeps(s: State, id: nat, graceMs: nat, stop: nat, i: nat)
    requires Inv(s) && Enabled(s, Move(id, graceMs, stop)) && s.handlers[id].Disarming?
    ensures StopOk(Moved(s, id, graceMs, stop), i)
  {
    var t := Moved(s, id, graceMs, stop);
    assert StopOk(s, i);
    if i in t.stops { OthersStay(s, t, id, s.stops[i].target); }
  }

  lemma PostponeKeeps(s: State, id: nat, graceMs: nat, stop: nat, i: nat)
    requires Inv(s) && Enabled(s, Move(id, graceMs, stop)) && s.handlers[id].Postponing?
    ensures StopOk(Moved(s, id, graceMs, stop), i)
  {
    var t := Moved(s, id, graceMs, stop);
    assert StopOk(s, i) && HandlerOk(s, s.handlers[id]);
    if i in s.stops { OthersStay(s, t, id, s.stops[i].target); }
  }

  lemma MoveKeeps(s: State, id: nat, graceMs: nat, stop: nat, i: nat)
    requires Inv(s) && Enabled(s, Move(id, graceMs, stop))
    ensures StopOk(Moved(s, id, graceMs, stop), i)
  {
    match s.handlers[id]
    case Inserting(_, _) => InsertKeeps(s, id, graceMs, stop, i);
    case Gracing(_) => InsertKeeps(s, id, graceMs, stop, i);
    case Stopping(_) => InsertKeeps(s, id, graceMs, stop, i);
    case Marking(_) => ArmKeeps(s, id, graceMs, stop, i);
    case Reading(_) => ArmKeeps(s, id, graceMs, stop, i);
    case Recording(_, _, _) => RecordKeeps(s, id, graceMs, stop, i);
    case Losing(_, _, _, _) => RecordKeeps(s, id, graceMs, stop, i);
    case Disarming(_) => DisarmKeeps(s, id, graceMs, stop, i);
    case Postponing(_, _) => PostponeKeeps(s, id, graceMs, stop, i);
  }

  lemma StartKeeps(s: State, id: nat, handler: Handler, i: nat)
    requires Inv(s) && Enabled(s, Start(id, handler))
    ensures StopOk(Started(s, id, handler), i)
  {
    assert StopOk(s, i);
    if i in s.stops { OthersStay(s, Started(s, id, handler), id, s.stops[i].target); }
  }

  lemma FailKeeps(s: State, id: nat, i: nat)
    requires Inv(s) && Enabled(s, Fail(id))
    ensures StopOk(Failed(s, id), i)
  {
    assert StopOk(s, i);
    if i in s.stops { OthersStay(s, Failed(s, id), id, s.stops[i].target); }
  }

  /** The writes of the queue, and the clock, leave the handlers alone. */
  lemma QueueKeeps(s: State, e: Event, i: nat)
    requires Inv(s) && Enabled(s, e) && !e.Start? && !e.Move? && !e.Fail?
    ensures StopOk(Next(s, e), i)
  {
    assert StopOk(s, i) && Next(s, e).handlers == s.handlers;
    if e.Returned? { assert StopOk(s, e.stop); }
    if i in s.stops && ArmUnderWay(s, s.stops[i].target) { assert ArmUnderWay(Next(s, e), s.stops[i].target); }
  }

  lemma MovePastGrows(s: State, id: nat, graceMs: nat, added: nat, stop: nat)
    requires Enabled(s, Move(id, graceMs, added)) && stop in s.past
    ensures var t := Moved(s, id, graceMs, added); stop in t.past && t.past[stop].deadline == s.past[stop].deadline
  {
  }

  /** A history only grows. */
  lemma PastGrows(s: State, e: Event, stop: nat)
    requires Enabled(s, e) && stop in s.past
    ensures stop in Next(s, e).past && Next(s, e).past[stop].deadline == s.past[stop].deadline
  {
    if e.Move? { MovePastGrows(s, e.id, e.graceMs, e.stop, stop); }
  }

  lemma HistoryGrows(s: State, e: Event)
    requires Enabled(s, e)
    ensures s.registered <= Next(s, e).registered && s.displaced <= Next(s, e).displaced
  {
  }

  lemma OldHandlerKeeps(s: State, e: Event, handler: Handler)
    requires Enabled(s, e) && HandlerOk(s, handler)
    ensures HandlerOk(Next(s, e), handler)
  {
    HistoryGrows(s, e);
    if handler.Postponing? { PastGrows(s, e, handler.stop); }
  }

  lemma MovedHandlerKeeps(s: State, e: Event, id: nat)
    requires Inv(s) && Enabled(s, e) && (e.Move? || e.Start?) && e.id == id && id in Next(s, e).handlers
    ensures HandlerOk(Next(s, e), Next(s, e).handlers[id])
  {
    if e.Start? && e.handler.Postponing? { assert StopOk(s, e.handler.stop); }
  }

  lemma HandlersKeep(s: State, e: Event)
    requires Inv(s) && Enabled(s, e)
    ensures forall id :: id in Next(s, e).handlers ==> HandlerOk(Next(s, e), Next(s, e).handlers[id])
  {
    var t := Next(s, e);
    forall id | id in t.handlers ensures HandlerOk(t, t.handlers[id]) {
      if (e.Move? || e.Start?) && e.id == id { MovedHandlerKeeps(s, e, id); }
      else {
        assert id in s.handlers && t.handlers[id] == s.handlers[id];
        OldHandlerKeeps(s, e, s.handlers[id]);
      }
    }
  }

  lemma TunnelsKeep(s: State, e: Event)
    requires Inv(s) && Enabled(s, e)
    ensures forall x :: x in Next(s, e).up ==> x.job in Next(s, e).registered
  {
  }

  lemma StepKeeps(s: State, e: Event)
    requires Inv(s) && Enabled(s, e)
    ensures Inv(Next(s, e))
  {
    forall i: nat ensures StopOk(Next(s, e), i) {
      match e
      case Start(id, handler) => StartKeeps(s, id, handler, i);
      case Move(id, graceMs, stop) => MoveKeeps(s, id, graceMs, stop, i);
      case Fail(id) => FailKeeps(s, id, i);
      case _ => QueueKeeps(s, e, i);
    }
    HandlersKeep(s, e);
    TunnelsKeep(s, e);
  }

  lemma {:induction false} RunKeeps(s: State, events: seq<Event>)
    requires Inv(s) && IsRun(s, events)
    ensures Inv(Final(s, events))
    decreases |events|
  {
    if events != [] {
      StepKeeps(s, events[0]);
      RunKeeps(Next(s, events[0]), events[1..]);
    }
  }

  /**
   * For every interleaving, failed handlers included: an online job keeps a
   * cancellable startup stop with nothing on its way to cancel it exactly when its
   * arms have read the tunnels and every disarm set going, if any was, is over.
   * Unless a handler failed, it is then online only through registrations that did
   * not name its deployment, or its due time was written again after a disarm that
   * ran while the stop was due or being processed.
   */
  lemma NoLostTunnelStop(now: int, events: seq<Event>, stop: nat)
    requires IsRun(Initial(now), events) && Doomed(Final(Initial(now), events), stop)
    ensures var s := Final(Initial(now), events); var target, past := s.stops[stop].target, s.past[stop];
      && (!Rescued(s, target) <==> !ArmUnderWay(s, target) && past.calls == past.misses)
      && (!Rescued(s, target) && target !in s.failed ==>
            if past.calls == 0 then OnlyUnnamedUp(s, target) else past.revived)
  {
    RunKeeps(Initial(now), events);
    assert StopOk(Final(Initial(now), events), stop);
  }

  /** A registration of the job names the job's deployment. */
  predicate Names(handler: Handler, target: Target) {
    handler.Recording? && handler.job == target.job ==> handler.deployment == Some(target.deployment)
  }

  ghost predicate AllNamed(events: seq<Event>, target: Target) {
    forall e :: e in events && e.Start? ==> Names(e.handler, target)
  }

  ghost predicate NamedUp(s: State, target: Target) {
    && (forall e :: e in s.up && e.job == target.job ==> s.up[e] == Some(target.deployment))
    && (forall id :: id in s.handlers ==> Names(s.handlers[id], target))
  }

  lemma NamedStep(s: State, e: Event, target: Target)
    requires NamedUp(s, target) && Enabled(s, e) && (e.Start? ==> Names(e.handler, target))
    ensures NamedUp(Next(s, e), target)
  {
    var t := Next(s, e);
    NamedTunnels(s, e, target);
    forall id | id in t.handlers ensures Names(t.handlers[id], target) {
      if id in s.handlers { assert Names(s.handlers[id], target); }
    }
  }

  lemma NamedTunnels(s: State, e: Event, target: Target)
    requires NamedUp(s, target) && Enabled(s, e)
    ensures forall x :: x in Next(s, e).up && x.job == target.job ==> Next(s, e).up[x] == Some(target.deployment)
  {
    if e.Move? { assert Names(s.handlers[e.id], target); }
  }

  lemma {:induction false} NamedRun(s: State, events: seq<Event>, target: Target)
    requires NamedUp(s, target) && IsRun(s, events) && AllNamed(events, target)
    ensures NamedUp(Final(s, events), target)
    decreases |events|
  {
    if events != [] {
      assert events[0] in events;
      NamedStep(s, events[0], target);
      NamedRun(Next(s, events[0]), events[1..], target);
    }
  }

  /** A step that neither fails a handler nor writes a stored stop's due time. */
  predicate IsSteady(e: Event) { !e.Fail? && !e.Returned? && !(e.Start? && e.handler.Postponing?) }

  ghost predicate Steady(s: State) {
    && s.failed == {} && (forall id :: id in s.handlers ==> !s.handlers[id].Postponing?)
    && (forall i :: i in s.past ==> !s.past[i].revived)
  }

  lemma {:induction false} SteadyRun(s: State, events: seq<Event>)
    requires Steady(s) && IsRun(s, events) && forall e :: e in events ==> IsSteady(e)
    ensures Steady(Final(s, events))
    decreases |events|
  {
    if events != [] {
      assert events[0] in events;
      SteadyStep(s, events[0]);
      SteadyRun(Next(s, events[0]), events[1..]);
    }
  }

  lemma SteadyMove(s: State, id: nat, graceMs: nat, stop: nat)
    requires Steady(s) && Enabled(s, Move(id, graceMs, stop))
    ensures Steady(Moved(s, id, graceMs, stop))
  {
    assert !s.handlers[id].Postponing?;
  }

  lemma SteadyStep(s: State, e: Event)
    requires Steady(s) && Enabled(s, e) && IsSteady(e)
    ensures Steady(Next(s, e))
  {
    if e.Move? { SteadyMove(s, e.id, e.graceMs, e.stop); }
  }

  /**
   * For every interleaving in which the job's registrations name its deployment
   * and neither its arm nor a disarm fails: while it is online, a startup stop that
   * can still be cancelled has something on its way to cancel it, unless its due
   * time was written after a disarm missed it. So with no failure, no postponement
   * and no retry at all, it always has.
   */
  lemma NamedRegistrationsRescue(now: int, events: seq<Event>, stop: nat)
    requires IsRun(Initial(now), events) && Doomed(Final(Initial(now), events), stop)
    requires AllNamed(events, Final(Initial(now), events).stops[stop].target)
    ensures var s := Final(Initial(now), events); var target := s.stops[stop].target;
      && (target !in s.failed && !s.past[stop].revived ==> Rescued(s, target))
      && ((forall e :: e in events ==> IsSteady(e)) ==> Rescued(s, target))
  {
    var s := Final(Initial(now), events);
    NamedRun(Initial(now), events, s.stops[stop].target);
    NoLostTunnelStop(now, events, stop);
    if forall e :: e in events ==> IsSteady(e) { SteadyRun(Initial(now), events); }
  }

  /**
   * From any reachable state with a cancellable startup stop and nothing on its
   * way to cancel it: a registration recorded for the job leaves it online, and
   * its stop with a disarm on its way exactly when it names the deployment.
   */
  lemma RegistrationRescuesIff(now: int, events: seq<Event>, stop: nat, id: nat, op: string, deployment: Option<string>)
    requires IsRun(Initial(now), events)
    requires var s := Final(Initial(now), events);
      && stop in s.stops && s.stops[stop].startup && Cancellable(s.stops[stop], s.stops[stop].target, s.now)
      && !Rescued(s, s.stops[stop].target) && id !in s.handlers
    ensures var s := Final(Initial(now), events); var target := s.stops[stop].target;
      var t := Moved(Next(s, Start(id, Recording(deployment, target.job, Some(op)))), id, 0, 0);
      Doomed(t, stop) && (Rescued(t, target) <==> deployment == Some(target.deployment))
  {
    RunKeeps(Initial(now), events);
    var s := Final(Initial(now), events);
    var target := s.stops[stop].target;
    assert StopOk(s, stop);
    var t := Moved(Next(s, Start(id, Recording(deployment, target.job, Some(op)))), id, 0, 0);
    assert Endpoint(target.job, op) in t.up;
    if deployment == Some(target.deployment) { assert id in Disarms(t.handlers, target); }
    assert Disarms(t.handlers, target) <= Disarms(s.handlers, target) + {id};
    forall other | other in t.handlers ensures !IsArm(t.handlers[other], target) {
      if other != id { assert other in s.handlers && t.handlers[other] == s.handlers[other]; }
    }
  }

  lemma {:induction false} RunsJoin(s: State, events: seq<Event>, more: seq<Event>)
    requires IsRun(s, events) && IsRun(Final(s, events), more)
    ensures IsRun(s, events + more) && Final(s, events + more) == Final(Final(s, events), more)
    decreases |events|
  {
    if events == [] {
      assert events + more == more;
    } else {
      RunsJoin(Next(s, events[0]), events[1..], more);
      assert (events + more)[1..] == events[1..] + more;
    }
  }

  lemma RunTail(s: State, events: seq<Event>, e: Event)
    requires IsRun(s, events) && Enabled(Final(s, events), e)
    ensures IsRun(s, events + [e]) && Final(s, events + [e]) == Next(Final(s, events), e)
  {
    assert IsRun(Final(s, events), [e]);
    RunsJoin(s, events, [e]);
  }

  /** An arm that finds its job offline. */
  function ArmedOffline(target: Target, dueAt: int): seq<Event> {
    [] + [Start(0, Inserting(target, dueAt))] + [Move(0, 0, 0)] + [Move(0, 0, 1)] + [Move(0, 0, 1)]
  }

  function ArmedState(target: Target, dueAt: int): State {
    Initial(0).(stops := map[0 := Stop(target, dueAt, true, true)], past := map[0 := Past(dueAt, false, 0, 0, false)])
  }

  lemma ArmedOfflineRuns(target: Target, dueAt: int)
    ensures IsRun(Initial(0), ArmedOffline(target, dueAt))
    ensures Final(Initial(0), ArmedOffline(target, dueAt)) == ArmedState(target, dueAt)
  {
    var e1, e2, e3 := Start(0, Inserting(target, dueAt)), Move(0, 0, 0), Move(0, 0, 1);
    var s1 := Next(Initial(0), e1);
    assert Disarms(s1.handlers, target) == {};
    var s2 := Next(s1, e2);
    RunTail(Initial(0), [], e1);
    RunTail(Initial(0), [] + [e1], e2);
    RunTail(Initial(0), [] + [e1] + [e2], e3);
    RunTail(Initial(0), [] + [e1] + [e2] + [e3], e3);
  }

  /** A registration without a deployment: all of its steps. */
  function Unnamed(target: Target, op: string): seq<Event> {
    [] + [Start(1, Recording(None, target.job, Some(op)))] + [Move(1, 0, 1)]
  }

  /** A job is armed, not yet online, and then registers without a deployment: online, doomed, and no handler left. */
  lemma UnnamedRegistrationStrands(target: Target, op: string, dueAt: int)
    requires 0 < dueAt
    ensures var events := ArmedOffline(target, dueAt) + Unnamed(target, op);
      IsRun(Initial(0), events) && Doomed(Final(Initial(0), events), 0) && Final(Initial(0), events).handlers == map[]
  {
    var s := ArmedState(target, dueAt);
    var e1, e2 := Start(1, Recording(None, target.job, Some(op))), Move(1, 0, 1);
    ArmedOfflineRuns(target, dueAt);
    RunTail(s, [], e1);
    RunTail(s, [] + [e1], e2);
    assert Endpoint(target.job, op) in Final(s, Unnamed(target, op)).up;
    RunsJoin(Initial(0), ArmedOffline(target, dueAt), Unnamed(target, op));
  }

  /** The stop comes due, a registration that names the deployment finds it so, and a longer timeout moves it on. */
  function Missing(target: Target, op: string, dueAt: int): seq<Event> {
    [] + [Tick(dueAt)] + [Start(1, Recording(Some(target.deployment), target.job, Some(op)))] + [Move(1, 0, 1)] + [Move(1, 0, 1)]
  }

  function Moving(later: int): seq<Event> { [] + [Start(2, Postponing(0, later))] + [Move(2, 0, 1)] }

  function MissedState(target: Target, op: string, dueAt: int): State {
    ArmedState(target, dueAt).(now := dueAt, up := map[Endpoint(target.job, op) := Some(target.deployment)],
      registered := {target.job}, past := map[0 := Past(dueAt, false, 1, 1, false)])
  }

  lemma MissingRuns(target: Target, op: string, dueAt: int)
    requires 0 <= dueAt
    ensures IsRun(ArmedState(target, dueAt), Missing(target, op, dueAt))
    ensures Final(ArmedState(target, dueAt), Missing(target, op, dueAt)) == MissedState(target, op, dueAt)
  {
    var s := ArmedState(target, dueAt);
    var e1, e2, e3 := Tick(dueAt), Start(1, Recording(Some(target.deployment), target.job, Some(op))), Move(1, 0, 1);
    RunTail(s, [], e1);
    RunTail(s, [] + [e1], e2);
    RunTail(s, [] + [e1] + [e2], e3);
    RunTail(s, [] + [e1] + [e2] + [e3], e3);
  }

  lemma MovingRuns(target: Target, op: string, dueAt: int, later: int)
    requires dueAt < later
    ensures var s := MissedState(target, op, dueAt);
      IsRun(s, Moving(later)) && Doomed(Final(s, Moving(later)), 0) && Final(s, Moving(later)).handlers == map[]
  {
    var s := MissedState(target, op, dueAt);
    var e1, e2 := Start(2, Postponing(0, later)), Move(2, 0, 1);
    RunTail(s, [], e1);
    RunTail(s, [] + [e1], e2);
    assert Endpoint(target.job, op) in Final(s, Moving(later)).up;
  }

  /**
   * A job registers under its deployment once its stop is due, and its timeout is
   * then raised: the stop lies ahead again, and no handler is left to cancel it.
   */
  lemma PostponedStopStrands(target: Target, op: string, dueAt: int, later: int)
    requires 0 <= dueAt < later
    ensures var events := ArmedOffline(target, dueAt) + (Missing(target, op, dueAt) + Moving(later));
      && IsRun(Initial(0), events) && AllNamed(events, target)
      && Doomed(Final(Initial(0), events), 0) && Final(Initial(0), events).handlers == map[]
  {
    ArmedOfflineRuns(target, dueAt);
    MissingRuns(target, op, dueAt);
    MovingRuns(target, op, dueAt, later);
    RunsJoin(ArmedState(target, dueAt), Missing(target, op, dueAt), Moving(later));
    RunsJoin(Initial(0), ArmedOffline(target, dueAt), Missing(target, op, dueAt) + Moving(later));
  }

  /** A stop as it was first scheduled, whatever was written to its due time since. */
  predicate Kept(s: State, t: State, stop: nat) {
    && stop in s.stops && stop in t.stops && stop in s.past && stop in t.past
    && t.stops[stop].target == s.stops[stop].target && t.stops[stop].startup == s.stops[stop].startup
    && t.past[stop].deadline == s.past[stop].deadline
  }

  lemma MoveLeaves(s: State, id: nat, graceMs: nat, added: nat, stop: nat)
    requires Inv(s) && Enabled(s, Move(id, graceMs, added)) && stop in s.stops
    requires s.stops[stop].target.job !in s.registered && s.stops[stop].target !in s.displaced
    ensures var t := Moved(s, id, graceMs, added);
      stop in t.stops && t.stops[stop].target == s.stops[stop].target && t.stops[stop].startup == s.stops[stop].startup
  {
    assert StopOk(s, stop) && HandlerOk(s, s.handlers[id]);
  }

  lemma StopStays(s: State, e: Event, stop: nat)
    requires Inv(s) && Enabled(s, e) && stop in s.stops && e != Removed(stop)
    requires s.stops[stop].target.job !in s.registered && s.stops[stop].target !in s.displaced
    ensures Kept(s, Next(s, e), stop)
  {
    assert StopOk(s, stop);
    PastGrows(s, e, stop);
    if e.Move? { MoveLeaves(s, e.id, e.graceMs, e.stop, stop); }
  }

  lemma {:induction false} HistoryGrowsLong(s: State, events: seq<Event>)
    requires IsRun(s, events)
    ensures s.registered <= Final(s, events).registered && s.displaced <= Final(s, events).displaced
    decreases |events|
  {
    if events != [] {
      HistoryGrows(s, events[0]);
      HistoryGrowsLong(Next(s, events[0]), events[1..]);
    }
  }

  lemma {:induction false} StopStaysLong(s: State, events: seq<Event>, stop: nat)
    requires Inv(s) && IsRun(s, events) && stop in s.stops && Removed(stop) !in events
    requires var t := Final(s, events); s.stops[stop].target.job !in t.registered && s.stops[stop].target !in t.displaced
    ensures Kept(s, Final(s, events), stop)
    decreases |events|
  {
    if events == [] {
      assert StopOk(s, stop);
    } else {
      HistoryGrowsLong(s, events);
      StopStays(s, events[0], stop);
      StepKeeps(s, events[0]);
      StopStaysLong(Next(s, events[0]), events[1..], stop);
    }
  }

  /**
   * And no deadline is lost or brought forward: whatever is interleaved, the stop
   * of a job whose tunnel never registered, and that no market change displaced,
   * is stored until it is deleted, and neither due nor processed before it was
   * first to be.
   */
  lemma DeadlineHolds(now: int, before: seq<Event>, after: seq<Event>, stop: nat)
    requires IsRun(Initial(now), before) && IsRun(Final(Initial(now), before), after)
    requires stop in Final(Initial(now), before).stops && Removed(stop) !in after
    requires var target, t := Final(Initial(now), before).stops[stop].target, Final(Final(Initial(now), before), after);
      target.job !in t.registered && target !in t.displaced
    ensures var s, t := Final(Initial(now), before), Final(Final(Initial(now), before), after);
      && Kept(s, t, stop) && s.past[stop].deadline <= t.stops[stop].dueAt
      && (!t.stops[stop].pending ==> s.past[stop].deadline <= t.now)
  {
    RunKeeps(Initial(now), before);
    var s := Final(Initial(now), before);
    StopStaysLong(s, after, stop);
    RunKeeps(s, after);
    assert StopOk(Final(s, after), stop);
  }
}
