/**
 * Any number of consumers over one queue: fetch cycles, runs and teardowns,
 * interleaved write by write, with crashes, restarts, and other writers.
 */
module Consumers {
  import opened Prelude
  import opened Queue

  datatype Config = Config(batchSize: nat, leaseMs: nat, maxAttempts: nat, maxInflightRetries: nat)

  /** A claimed task on its way through the fetch cycle, with the counters it was claimed with. */
  datatype Item = Item(stage: Stage, deployment: string, attempts: int, inflightRetries: int)

  /** Claimed; past the caps; holding the lock; counted as a dispatch; leaving with the lock still held. */
  datatype Stage = Fetched | Survivor | Locked | Counted | Leaving

  datatype Run = Run(deployment: string, phase: Phase)

  /**
   * Working; the outcome's own write still due; the lock still held; and what is
   * left once the lock is released.
   */
  datatype Phase = Working | Retrying | Parking | Reparking | Completing | Settled | Deleting | Released

  /** `capacity` is what an open fetch cycle may still claim. */
  datatype Consumer = Consumer(stopped: bool, capacity: Option<nat>, items: map<TaskId, Item>, runs: map<TaskId, Run>)

  /** `dispatched` and `parked` count, for every task ever stored, its counted dispatches and its parks. */
  datatype State = State(
    config: Config, now: int, tasks: map<TaskId, Task>, locks: map<string, Lock>,
    consumers: map<string, Consumer>, dispatched: map<TaskId, nat>, parked: map<TaskId, nat>)

  datatype Outcome = COMPLETED | RETRY | PARKED | ABORTED

  datatype Event =
    | Schedule(id: TaskId, task: Task)
    | Touch(id: TaskId, dueAt: int, request: Option<Request>, reservation: Option<Fill>)
    | Remove(id: TaskId)
    | Tick(now: int)
    | Restart(who: string)
    | Stop(who: string)
    | Open(who: string)
    | Close(who: string)
    | Fetch(who: string, id: TaskId)
    | Lose(who: string, id: TaskId)
    | Abandon(who: string, id: TaskId)
    | DropCapped(who: string, id: TaskId)
    | Survive(who: string, id: TaskId)
    | DropOrphan(who: string, id: TaskId)
    | TakeLock(who: string, id: TaskId)
    | Contend(who: string, id: TaskId)
    | Count(who: string, id: TaskId)
    | DropUnwanted(who: string, id: TaskId)
    | Leave(who: string, id: TaskId)
    | Dispatch(who: string, id: TaskId)
    | Finish(who: string, id: TaskId, outcome: Outcome)
    | Reschedule(who: string, id: TaskId, dueAt: int)
    | Park(who: string, id: TaskId, dueAt: int)
    | Delete(who: string, id: TaskId)
    | ReleaseLock(who: string, id: TaskId)
    | Forget(who: string, id: TaskId)

  /** A consumer process starting, stopping, opening a cycle or closing one. */
  predicate IsCycleEvent(e: Event) { e.Restart? || e.Stop? || e.Open? || e.Close? }

  /** A claimed task moving on in its fetch cycle, or leaving it without a run. */
  predicate IsStageEvent(e: Event) { e.Survive? || e.TakeLock? || e.Count? || e.DropUnwanted? }

  predicate IsExitEvent(e: Event) {
    e.Lose? || e.Abandon? || e.DropCapped? || e.DropOrphan? || e.Contend? || e.Leave?
  }

  /** A run ending and tearing down. Its consumer then forgets it, whether or not its delete and its lock's release succeeded. */
  predicate IsPhaseEvent(e: Event) { e.Finish? || e.Reschedule? || e.Park? || e.Delete? || e.ReleaseLock? }

  /** One consumer's step on one task. */
  predicate IsTaskEvent(e: Event) {
    e.Fetch? || IsStageEvent(e) || IsExitEvent(e) || e.Dispatch? || IsPhaseEvent(e) || e.Forget?
  }

  predicate ItemAt(s: State, who: string, id: TaskId, stage: Stage) {
    who in s.consumers && id in s.consumers[who].items && s.consumers[who].items[id].stage == stage
  }

  predicate RunAt(s: State, who: string, id: TaskId, phase: Phase) {
    who in s.consumers && id in s.consumers[who].runs && s.consumers[who].runs[id].phase == phase
  }

  /** Over either cap; an in-flight cap of zero is none. */
  predicate Capped(config: Config, attempts: int, inflightRetries: int) {
    attempts >= config.maxAttempts || (config.maxInflightRetries > 0 && inflightRetries >= config.maxInflightRetries)
  }

  predicate CappedItem(config: Config, item: Item) { Capped(config, item.attempts, item.inflightRetries) }

  /** The item or run holds its deployment's lock. */
  predicate HoldsLock(c: Consumer, id: TaskId, deployment: string) {
    || (id in c.items && c.items[id].deployment == deployment && c.items[id].stage in {Locked, Counted, Leaving})
    || (id in c.runs && c.runs[id].deployment == deployment && c.runs[id].phase !in {Deleting, Released})
  }

  /** A run tears down, and a cycle moves on, before the lock taken for it expires. */
  ghost predicate BeforeExpiry(s: State, now: int) {
    forall who, id, deployment ::
      who in s.consumers && HoldsLock(s.consumers[who], id, deployment) && deployment in s.locks ==>
        now <= s.locks[deployment].expiresAt
  }

  ghost predicate Enabled(s: State, e: Event) {
    match e
    case Schedule(id, task) =>
      id !in s.dispatched && task.attempts == 0 && task.inflightRetries == 0 && task.claimedBy.None? && task.lease.None?
      && task.status != Some(PROCESSING)
    case Touch(id, _, _, _) => id in s.tasks
    case Remove(_) => true
    case Tick(now) => s.now <= now && BeforeExpiry(s, now)
    case Restart(_) => true
    case Stop(who) => who in s.consumers
    case Open(who) =>
      who in s.consumers && !s.consumers[who].stopped && s.consumers[who].capacity.None? && s.consumers[who].items == map[]
      && |s.consumers[who].runs| < s.config.batchSize
    case Close(who) => who in s.consumers && s.consumers[who].items == map[]
    case Fetch(who, id) =>
      who in s.consumers && s.consumers[who].capacity.Some? && s.consumers[who].capacity.value > 0
      && (forall other :: other in s.consumers[who].items ==> s.consumers[who].items[other].stage == Fetched)
      && id in s.tasks && Claimable(s.tasks[id], s.now)
      && forall other :: other in s.tasks ==> NotBefore(s.tasks[id], s.tasks[other], s.now)
    case Lose(who, id) => who in s.consumers && id in s.consumers[who].items
    case Abandon(who, id) =>
      ItemAt(s, who, id, Fetched) && id !in s.consumers[who].runs && CappedItem(s.config, s.consumers[who].items[id])
    case DropCapped(who, id) =>
      ItemAt(s, who, id, Fetched) && id !in s.consumers[who].runs && CappedItem(s.config, s.consumers[who].items[id])
    case Survive(who, id) =>
      ItemAt(s, who, id, Fetched) && id !in s.consumers[who].runs && !CappedItem(s.config, s.consumers[who].items[id])
    case DropOrphan(who, id) => ItemAt(s, who, id, Survivor)
    case TakeLock(who, id) =>
      ItemAt(s, who, id, Survivor) && Lockable(s.locks, s.consumers[who].items[id].deployment, s.now)
    case Contend(who, id) =>
      ItemAt(s, who, id, Survivor) && !Lockable(s.locks, s.consumers[who].items[id].deployment, s.now)
    case Count(who, id) => ItemAt(s, who, id, Locked)
    case DropUnwanted(who, id) => ItemAt(s, who, id, Counted)
    case Leave(who, id) => ItemAt(s, who, id, Leaving)
    case Dispatch(who, id) => ItemAt(s, who, id, Counted)
    case Finish(who, id, _) => RunAt(s, who, id, Working)
    case Reschedule(who, id, _) => RunAt(s, who, id, Retrying)
    case Park(who, id, _) => RunAt(s, who, id, Parking) || RunAt(s, who, id, Reparking)
    case Delete(who, id) => RunAt(s, who, id, Completing) || RunAt(s, who, id, Deleting)
    case ReleaseLock(who, id) => RunAt(s, who, id, Settled) || RunAt(s, who, id, Completing)
    case Forget(who, id) =>
      who in s.consumers && id in s.consumers[who].runs
      && s.consumers[who].runs[id].phase in {Settled, Completing, Deleting, Released}
  }

  function AfterOutcome(outcome: Outcome): Phase {
    match outcome
    case COMPLETED => Completing
    case RETRY => Retrying
    case PARKED => Parking
    case ABORTED => Settled
  }

  ghost function TasksNext(s: State, e: Event): map<TaskId, Task>
    requires Enabled(s, e)
  {
    match e
    case Schedule(id, task) => s.tasks[id := task]
    case Touch(id, dueAt, request, reservation) =>
      s.tasks[id := s.tasks[id].(dueAt := dueAt, request := request, reservation := reservation)]
    case Remove(id) => s.tasks - {id}
    case Fetch(who, id) => s.tasks[id := Claim(s.tasks[id], who, s.now, s.config.leaseMs)]
    case Abandon(_, id) => s.tasks - {id}
    case DropCapped(who, id) => Deleted(s.tasks, id, who)
    case DropOrphan(who, id) => Deleted(s.tasks, id, who)
    case Contend(_, id) => HandedBack(s.tasks, id, s.now)
    case Count(who, id) => Incremented(s.tasks, id, who)
    case DropUnwanted(who, id) => Deleted(s.tasks, id, who)
    case Reschedule(who, id, dueAt) => Rescheduled(s.tasks, id, who, dueAt)
    case Park(who, id, dueAt) => ParkReleased(s.tasks, id, who, RunAt(s, who, id, Parking), dueAt)
    case Delete(who, id) => Deleted(s.tasks, id, who)
    case _ => s.tasks
  }

  ghost function LocksNext(s: State, e: Event): map<string, Lock>
    requires Enabled(s, e)
  {
    match e
    case TakeLock(who, id) => s.locks[s.consumers[who].items[id].deployment := Lock(who, s.now + s.config.leaseMs)]
    case Leave(who, id) => Unlocked(s.locks, s.consumers[who].items[id].deployment, who)
    case ReleaseLock(who, id) => Unlocked(s.locks, s.consumers[who].runs[id].deployment, who)
    case _ => s.locks
  }

  /** A dispatch is counted only while the claim holds; otherwise the lock is given back. */
  ghost function StageNext(s: State, e: Event): Stage
    requires IsStageEvent(e) && Enabled(s, e)
  {
    match e
    case Survive(_, _) => Survivor
    case TakeLock(_, _) => Locked
    case Count(who, id) => if Owns(s.tasks, id, who) then Counted else Leaving
    case DropUnwanted(_, _) => Leaving
  }

  /** The delete and the lock's release of a completed run may come in either order. */
  ghost function PhaseNext(s: State, e: Event): Phase
    requires IsPhaseEvent(e) && Enabled(s, e)
  {
    match e
    case Finish(_, _, outcome) => AfterOutcome(outcome)
    case Reschedule(_, _, _) => Settled
    case Park(who, id, _) =>
      if RunAt(s, who, id, Parking) && !ParkMatches(s.tasks, id, who, true) then Reparking else Settled
    case Delete(who, id) => if RunAt(s, who, id, Completing) then Settled else Released
    case ReleaseLock(who, id) => if RunAt(s, who, id, Completing) then Deleting else Released
  }

  ghost function ConsumerNext(s: State, e: Event): Consumer
    requires (IsCycleEvent(e) || IsTaskEvent(e)) && Enabled(s, e)
  {
    if e.Restart? then Consumer(false, None, map[], map[])
    else
      var c := s.consumers[e.who];
      if e.Stop? then c.(stopped := true)
      else if e.Open? then c.(capacity := Some(s.config.batchSize - |c.runs|))
      else if e.Close? then c.(capacity := None)
      else if e.Fetch? then
        var task := s.tasks[e.id];
        c.(capacity := Some(c.capacity.value - 1),
           items := c.items[e.id := Item(Fetched, task.deployment, task.attempts, task.inflightRetries)])
      else if IsStageEvent(e) then c.(items := c.items[e.id := c.items[e.id].(stage := StageNext(s, e))])
      else if IsExitEvent(e) then c.(items := c.items - {e.id})
      else if e.Dispatch? then
        c.(items := c.items - {e.id}, runs := c.runs[e.id := Run(c.items[e.id].deployment, Working)])
      else if IsPhaseEvent(e) then c.(runs := c.runs[e.id := c.runs[e.id].(phase := PhaseNext(s, e))])
      else c.(runs := c.runs - {e.id})
  }

  ghost function ConsumersNext(s: State, e: Event): map<string, Consumer>
    requires Enabled(s, e)
  {
    if IsCycleEvent(e) || IsTaskEvent(e) then s.consumers[e.who := ConsumerNext(s, e)] else s.consumers
  }

  /** Dispatches are counted with the attempts, and parks where a park released the task. */
  ghost function DispatchedNext(s: State, e: Event): map<TaskId, nat>
    requires Enabled(s, e)
  {
    if e.Schedule? then s.dispatched[e.id := 0]
    else if e.Count? && Owns(s.tasks, e.id, e.who) && e.id in s.dispatched then s.dispatched[e.id := s.dispatched[e.id] + 1]
    else s.dispatched
  }

  ghost function ParkedNext(s: State, e: Event): map<TaskId, nat>
    requires Enabled(s, e)
  {
    if e.Schedule? then s.parked[e.id := 0]
    else if e.Park? && ParkMatches(s.tasks, e.id, e.who, RunAt(s, e.who, e.id, Parking)) && e.id in s.parked then
      s.parked[e.id := s.parked[e.id] + 1]
    else s.parked
  }

  /** One step: each part of the state moves on its own. */
  ghost function Next(s: State, e: Event): State
    requires Enabled(s, e)
  {
    State(s.config, if e.Tick? then e.now else s.now, TasksNext(s, e), LocksNext(s, e), ConsumersNext(s, e),
          DispatchedNext(s, e), ParkedNext(s, e))
  }

  function Initial(config: Config, now: int): State { State(config, now, map[], map[], map[], map[], map[]) }

  ghost predicate IsRun(s: State, events: seq<Event>)
    decreases |events|
  {
    events != [] ==> Enabled(s, events[0]) && IsRun(Next(s, events[0]), events[1..])
  }

  ghost function Final(s: State, events: seq<Event>): State
    requires IsRun(s, events)
    decreases |events|
  {
    if events == [] then s else Final(Next(s, events[0]), events[1..])
  }
}
