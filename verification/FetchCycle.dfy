/** One consumer's fetch cycle, as it runs when no other writer cuts in. */
module FetchCycle {
  import opened Prelude
  import opened Queue
  import opened Consumers

  /**
   * What a cycle reads from outside the queue: the clock at each claim and each
   * lock, whether a task is wanted or in flight, whether its deployment and vault
   * exist, and how many tasks it handles before a stop.
   */
  datatype World = World(claimAt: seq<int>, lockAt: nat -> int, wanted: TaskId -> bool, inFlight: TaskId -> bool,
                         hydrated: TaskId -> bool, handled: nat)

  ghost predicate InOneLease(world: World, leaseMs: nat) {
    && (forall i, j :: 0 <= i < |world.claimAt| && 0 <= j < |world.claimAt| ==> world.claimAt[j] <= world.claimAt[i] + leaseMs)
    && forall i: nat, j: nat :: world.lockAt(j) <= world.lockAt(i) + leaseMs
  }

  predicate OverCap(config: Config, task: Task) { Capped(config, task.attempts, task.inflightRetries) }

  /** Handed back or deleted: nothing of the claim is left. */
  predicate LetGo(tasks: map<TaskId, Task>, id: TaskId) {
    id in tasks ==> tasks[id].status == Some(PENDING) && tasks[id].claimedBy.None? && tasks[id].lease.None?
  }

  /** One consumer's view at some moment: the queue, the locks, and what it has in flight. */
  datatype View = View(tasks: map<TaskId, Task>, locks: map<string, Lock>, inflight: map<TaskId, string>)

  predicate IsNew(start: View, v: View, id: TaskId) { id in v.inflight && id !in start.inflight }

  /**
   * A task this cycle dispatched: it was under both caps, is counted once, claimed
   * and locked by this consumer, and wanted or in flight.
   */
  ghost predicate IsDispatched(start: View, v: View, id: TaskId, name: string, config: Config, world: World) {
    && id in start.tasks && id in v.inflight && v.inflight[id] == start.tasks[id].deployment
    && !OverCap(config, start.tasks[id]) && (world.inFlight(id) || world.wanted(id))
    && Owns(v.tasks, id, name) && v.tasks[id].attempts == start.tasks[id].attempts + 1
    && v.inflight[id] in v.locks && v.locks[v.inflight[id]].holder == name
  }

  ghost predicate OneADeployment(start: View, v: View) {
    forall id, other ::
      IsNew(start, v, id) && IsNew(start, v, other) && v.inflight[id] == v.inflight[other] ==> id == other
  }

  /** What was in flight still is, and what is new was dispatched, one to a deployment. */
  ghost predicate Started(start: View, v: View, name: string, config: Config, world: World) {
    && (forall id :: id in start.inflight ==> id in v.inflight && v.inflight[id] == start.inflight[id])
    && (forall id :: IsNew(start, v, id) ==> IsDispatched(start, v, id, name, config, world))
    && OneADeployment(start, v)
  }

  /** Its lock outlives every reading of the clock this cycle makes. */
  ghost predicate LockedFor(v: View, deployment: string, world: World) {
    deployment in v.locks && forall j: nat :: world.lockAt(j) <= v.locks[deployment].expiresAt
  }

  /** After `k` dispatches the rest is untouched. */
  ghost predicate Untouched(start: View, v: View, enriched: seq<TaskId>, k: nat) {
    && v.tasks.Keys <= start.tasks.Keys && |v.inflight| <= |start.inflight| + k
    && (forall j :: k <= j < |enriched| ==>
          enriched[j] in start.tasks && enriched[j] in v.tasks && v.tasks[enriched[j]] == start.tasks[enriched[j]]
          && enriched[j] !in v.inflight)
    && (forall id :: id in start.tasks && id !in enriched ==> id in v.tasks && v.tasks[id] == start.tasks[id])
  }

  /** After `k` dispatches what started holds its lock, and the others are let go. */
  ghost predicate Handled(start: View, v: View, enriched: seq<TaskId>, k: nat, world: World)
    requires k <= |enriched|
  {
    && (forall id :: IsNew(start, v, id) ==> id in enriched && LockedFor(v, v.inflight[id], world))
    && (forall j :: 0 <= j < k ==> enriched[j] in v.inflight || LetGo(v.tasks, enriched[j]))
  }

  ghost predicate DispatchedTo(start: View, v: View, enriched: seq<TaskId>, k: nat, world: World)
    requires k <= |enriched|
  {
    Untouched(start, v, enriched, k) && Handled(start, v, enriched, k, world)
  }

  /**
   * What one try does: a dispatch under a fresh lock and a counted attempt; or,
   * the lock given back if it was taken, a task handed back on contention, left
   * to whoever holds it now, or deleted as unwanted.
   */
  ghost predicate IsTry(v: View, after: View, id: TaskId, deployment: string, now: int, runs: bool, name: string,
                        config: Config) {
    var acquired, owned := Lockable(v.locks, deployment, now), Owns(v.tasks, id, name);
    if acquired && owned && runs then
      && after.inflight == v.inflight[id := deployment]
      && after.tasks == Incremented(v.tasks, id, name)
      && after.locks == v.locks[deployment := Lock(name, now + config.leaseMs)]
    else
      && after.inflight == v.inflight
      && after.tasks == (if !acquired then HandedBack(v.tasks, id, now) else Deleted(v.tasks, id, name))
      && after.locks == if acquired then v.locks - {deployment} else v.locks
  }

  /** The k-th try, on a task still claimed as it was enriched. */
  ghost predicate IsTryOf(v: View, after: View, enriched: seq<TaskId>, k: nat, runs: bool, name: string,
                          config: Config, world: World)
    requires k < |enriched|
  {
    && Owns(v.tasks, enriched[k], name)
    && IsTry(v, after, enriched[k], v.tasks[enriched[k]].deployment, world.lockAt(k), runs, name, config)
  }

  lemma LockedStaysLocked(v: View, after: View, enriched: seq<TaskId>, k: nat, runs: bool, name: string, config: Config,
                          world: World, deployment: string)
    requires k < |enriched| && IsTryOf(v, after, enriched, k, runs, name, config, world) && LockedFor(v, deployment, world)
    ensures deployment != v.tasks[enriched[k]].deployment || !Lockable(v.locks, deployment, world.lockAt(k))
    ensures deployment in after.locks && after.locks[deployment] == v.locks[deployment]
  {
  }

  lemma TryLeavesRest(start: View, v: View, after: View, enriched: seq<TaskId>, k: nat, runs: bool, name: string,
                      config: Config, world: World)
    requires k < |enriched| && Untouched(start, v, enriched, k)
    requires Distinct(enriched)
    requires IsTryOf(v, after, enriched, k, runs, name, config, world)
    ensures Untouched(start, after, enriched, k + 1)
  {
    assert |after.inflight| <= |v.inflight| + 1 by {
      if enriched[k] in after.inflight { assert after.inflight.Keys <= v.inflight.Keys + {enriched[k]}; }
      SubsetSize(after.inflight.Keys, v.inflight.Keys + {enriched[k]});
    }
  }

  lemma TryHandles(start: View, v: View, after: View, enriched: seq<TaskId>, k: nat, runs: bool, name: string,
                   config: Config, world: World)
    requires k < |enriched| && Handled(start, v, enriched, k, world)
    requires Distinct(enriched)
    requires IsTryOf(v, after, enriched, k, runs, name, config, world) && InOneLease(world, config.leaseMs)
    ensures Handled(start, after, enriched, k + 1, world)
  {
    var id := enriched[k];
    forall other | IsNew(start, after, other) ensures other in enriched && LockedFor(after, after.inflight[other], world) {
      if other != id {
        assert IsNew(start, v, other);
        LockedStaysLocked(v, after, enriched, k, runs, name, config, world, v.inflight[other]);
      }
    }
    forall j | 0 <= j < k + 1 ensures enriched[j] in after.inflight || LetGo(after.tasks, enriched[j]) {
      if j < k { assert enriched[j] != id; }
    }
  }

  /** A try leaves what was dispatched before it as it was, on another deployment than what it dispatches. */
  lemma StillDispatched(start: View, v: View, after: View, enriched: seq<TaskId>, k: nat, runs: bool, name: string,
                        config: Config, world: World, other: TaskId)
    requires k < |enriched| && DispatchedTo(start, v, enriched, k, world) && other != enriched[k]
    requires IsTryOf(v, after, enriched, k, runs, name, config, world)
    requires IsNew(start, after, other) && (IsNew(start, v, other) ==> IsDispatched(start, v, other, name, config, world))
    ensures IsNew(start, v, other) && IsDispatched(start, after, other, name, config, world)
    ensures enriched[k] in after.inflight ==> after.inflight[other] != after.inflight[enriched[k]]
  {
    LockedStaysLocked(v, after, enriched, k, runs, name, config, world, v.inflight[other]);
  }

  /** What a try itself dispatches is dispatched as a cycle must. */
  lemma NewlyDispatched(start: View, v: View, after: View, enriched: seq<TaskId>, k: nat, runs: bool, name: string,
                        config: Config, world: World)
    requires k < |enriched| && Untouched(start, v, enriched, k)
    requires IsTryOf(v, after, enriched, k, runs, name, config, world)
    requires !OverCap(config, start.tasks[enriched[k]]) && (runs ==> world.inFlight(enriched[k]) || world.wanted(enriched[k]))
    requires enriched[k] in after.inflight
    ensures IsDispatched(start, after, enriched[k], name, config, world)
  {
  }

  lemma StillOneADeployment(start: View, v: View, after: View, id: TaskId)
    requires OneADeployment(start, v)
    requires forall other :: IsNew(start, after, other) && other != id ==>
               IsNew(start, v, other) && after.inflight[other] == v.inflight[other]
               && (id in after.inflight ==> after.inflight[other] != after.inflight[id])
    ensures OneADeployment(start, after)
  {
  }

  lemma TryStarts(start: View, v: View, after: View, enriched: seq<TaskId>, k: nat, runs: bool, name: string,
                  config: Config, world: World)
    requires k < |enriched| && DispatchedTo(start, v, enriched, k, world) && Started(start, v, name, config, world)
    requires IsTryOf(v, after, enriched, k, runs, name, config, world) && enriched[k] !in start.inflight
    requires !OverCap(config, start.tasks[enriched[k]]) && (runs ==> world.inFlight(enriched[k]) || world.wanted(enriched[k]))
    ensures Started(start, after, name, config, world)
  {
    var id := enriched[k];
    forall other | IsNew(start, after, other)
      ensures IsDispatched(start, after, other, name, config, world)
      ensures other != id ==> IsNew(start, v, other) && after.inflight[other] == v.inflight[other]
      ensures other != id && id in after.inflight ==> after.inflight[other] != after.inflight[id]
    {
      if other == id { NewlyDispatched(start, v, after, enriched, k, runs, name, config, world); }
      else { StillDispatched(start, v, after, enriched, k, runs, name, config, world, other); }
    }
    StillOneADeployment(start, v, after, id);
  }

  /** Claimed in between, on the counters it had: what started since is judged by the task as it was before. */
  ghost predicate SameCounts(before: Task, claimed: Task) {
    && claimed.deployment == before.deployment && claimed.attempts == before.attempts
    && claimed.inflightRetries == before.inflightRetries
  }

  lemma StartedSince(start: View, mid: View, v: View, name: string, config: Config, world: World)
    requires Started(mid, v, name, config, world) && mid.inflight == start.inflight
    requires forall id :: IsNew(mid, v, id) ==> id in start.tasks && id in mid.tasks && SameCounts(start.tasks[id], mid.tasks[id])
    ensures Started(start, v, name, config, world)
  {
    forall id | IsNew(start, v, id) ensures IsDispatched(start, v, id, name, config, world) {
      assert IsNew(mid, v, id) && IsDispatched(mid, v, id, name, config, world);
    }
    assert forall id :: IsNew(start, v, id) <==> IsNew(mid, v, id);
  }

  /** No other task of its deployment was started before its turn. */
  ghost predicate FirstOf(start: View, v: View, enriched: seq<TaskId>, k: nat, deployment: string) {
    forall j :: 0 <= j < k && j < |enriched| && enriched[j] in v.inflight && enriched[j] in start.tasks ==>
      start.tasks[enriched[j]].deployment != deployment
  }

  /** At some reading of the clock up to its turn, its deployment's lock was free to take. */
  ghost predicate WasFree(start: View, deployment: string, world: World, k: nat) {
    deployment in start.locks ==> exists j: nat :: j <= k && start.locks[deployment].expiresAt < world.lockAt(j)
  }

  /**
   * The k-th task had its turn: wanted or in flight, first of its deployment, and
   * with no live lock on it, it was started; and it was only if so, the lock
   * perhaps having run out at an earlier try.
   */
  ghost predicate HadItsTurn(start: View, v: View, enriched: seq<TaskId>, k: nat, world: World)
    requires k < |enriched|
  {
    var id := enriched[k];
    && id in start.tasks
    && var deployment := start.tasks[id].deployment;
       && (((world.inFlight(id) || world.wanted(id)) && FirstOf(start, v, enriched, k, deployment)
            && (deployment !in start.locks || start.locks[deployment].expiresAt < world.lockAt(k))) ==>
             id in v.inflight)
       && (id in v.inflight ==>
             (world.inFlight(id) || world.wanted(id)) && FirstOf(start, v, enriched, k, deployment)
             && WasFree(start, deployment, world, k))
  }

  /** A lock this cycle's tries left: as it was, or gone because one of them took it and gave it back. */
  ghost predicate LockLeft(start: View, v: View, deployment: string, world: World, k: nat) {
    if deployment in v.locks then deployment in start.locks && v.locks[deployment] == start.locks[deployment]
    else deployment in start.locks ==> exists j: nat :: j < k && start.locks[deployment].expiresAt < world.lockAt(j)
  }

  ghost predicate StartedOn(start: View, v: View, deployment: string) {
    exists id :: IsNew(start, v, id) && v.inflight[id] == deployment
  }

  ghost predicate StartedFrom(start: View, v: View, enriched: seq<TaskId>, k: nat, id: TaskId)
    requires k <= |enriched| && id in v.inflight
  {
    id in start.tasks && v.inflight[id] == start.tasks[id].deployment && exists j :: 0 <= j < k && enriched[j] == id
  }

  /** Turns taken in order, every deployment not started on with its lock as the tries left it. */
  ghost predicate TurnsTaken(start: View, v: View, enriched: seq<TaskId>, k: nat, world: World)
    requires k <= |enriched|
  {
    && (forall j :: 0 <= j < k ==> HadItsTurn(start, v, enriched, j, world))
    && (forall j :: 0 <= j < |enriched| ==> enriched[j] in start.tasks && enriched[j] !in start.inflight)
    && (forall deployment :: StartedOn(start, v, deployment) || LockLeft(start, v, deployment, world, k))
    && (forall id :: IsNew(start, v, id) ==> StartedFrom(start, v, enriched, k, id))
  }

  /** A deployment was started on exactly if an earlier task of it is in flight. */
  lemma StartedOnIff(start: View, v: View, enriched: seq<TaskId>, k: nat, deployment: string, world: World)
    requires k <= |enriched| && TurnsTaken(start, v, enriched, k, world)
    ensures StartedOn(start, v, deployment) <==> !FirstOf(start, v, enriched, k, deployment)
  {
    if StartedOn(start, v, deployment) {
      var other :| IsNew(start, v, other) && v.inflight[other] == deployment;
      assert StartedFrom(start, v, enriched, k, other);
      var j :| 0 <= j < k && enriched[j] == other;
    }
    if !FirstOf(start, v, enriched, k, deployment) {
      var j :| 0 <= j < k && enriched[j] in v.inflight && enriched[j] in start.tasks
               && start.tasks[enriched[j]].deployment == deployment;
      assert IsNew(start, v, enriched[j]) && StartedFrom(start, v, enriched, k, enriched[j]);
    }
  }

  /** The turn itself. */
  lemma TakesItsTurn(start: View, v: View, after: View, enriched: seq<TaskId>, k: nat, name: string, config: Config, world: World)
    requires k < |enriched| && Distinct(enriched) && Untouched(start, v, enriched, k) && TurnsTaken(start, v, enriched, k, world)
    requires Handled(start, v, enriched, k, world)
    requires IsTryOf(v, after, enriched, k, world.inFlight(enriched[k]) || world.wanted(enriched[k]), name, config, world)
    ensures HadItsTurn(start, after, enriched, k, world)
  {
    var id, deployment := enriched[k], start.tasks[enriched[k]].deployment;
    assert v.tasks[id] == start.tasks[id] && id !in v.inflight;
    StartedOnIff(start, v, enriched, k, deployment, world);
    assert FirstOf(start, after, enriched, k, deployment) <==> FirstOf(start, v, enriched, k, deployment);
    if StartedOn(start, v, deployment) {
      var other :| IsNew(start, v, other) && v.inflight[other] == deployment;
      assert LockedFor(v, deployment, world);
      assert world.lockAt(k) <= v.locks[deployment].expiresAt;
    } else {
      assert LockLeft(start, v, deployment, world, k);
    }
  }

  /** A turn leaves the turns before it as they were. */
  lemma EarlierTurnsStay(start: View, v: View, after: View, enriched: seq<TaskId>, k: nat, j: nat, world: World)
    requires j < k < |enriched| && Distinct(enriched) && HadItsTurn(start, v, enriched, j, world)
    requires forall id :: id != enriched[k] ==> (id in after.inflight <==> id in v.inflight)
    ensures HadItsTurn(start, after, enriched, j, world)
  {
    var deployment := start.tasks[enriched[j]].deployment;
    assert forall i :: 0 <= i <= j ==> enriched[i] != enriched[k];
    assert FirstOf(start, after, enriched, j, deployment) <==> FirstOf(start, v, enriched, j, deployment);
  }

  lemma LocksLeftAfter(start: View, v: View, after: View, enriched: seq<TaskId>, k: nat, name: string, config: Config,
                       world: World, deployment: string)
    requires k < |enriched| && Untouched(start, v, enriched, k) && TurnsTaken(start, v, enriched, k, world)
    requires IsTryOf(v, after, enriched, k, world.inFlight(enriched[k]) || world.wanted(enriched[k]), name, config, world)
    ensures StartedOn(start, after, deployment) || LockLeft(start, after, deployment, world, k + 1)
  {
    var id := enriched[k];
    if StartedOn(start, v, deployment) {
      var other :| IsNew(start, v, other) && v.inflight[other] == deployment;
      assert IsNew(start, after, other) && after.inflight[other] == deployment;
    } else {
      assert LockLeft(start, v, deployment, world, k);
      if v.tasks[id].deployment == deployment && id in after.inflight && id !in v.inflight {
        assert IsNew(start, after, id) && after.inflight[id] == deployment;
      }
    }
  }

  lemma TurnsGoOn(start: View, v: View, after: View, enriched: seq<TaskId>, k: nat, name: string, config: Config, world: World)
    requires k < |enriched| && Distinct(enriched) && Untouched(start, v, enriched, k) && TurnsTaken(start, v, enriched, k, world)
    requires Handled(start, v, enriched, k, world)
    requires IsTryOf(v, after, enriched, k, world.inFlight(enriched[k]) || world.wanted(enriched[k]), name, config, world)
    ensures TurnsTaken(start, after, enriched, k + 1, world)
  {
    forall j | 0 <= j < k + 1 ensures HadItsTurn(start, after, enriched, j, world) {
      if j == k { TakesItsTurn(start, v, after, enriched, k, name, config, world); }
      else { EarlierTurnsStay(start, v, after, enriched, k, j, world); }
    }
    forall deployment ensures StartedOn(start, after, deployment) || LockLeft(start, after, deployment, world, k + 1) {
      LocksLeftAfter(start, v, after, enriched, k, name, config, world, deployment);
    }
    forall id | IsNew(start, after, id) ensures StartedFrom(start, after, enriched, k + 1, id) {
      if id != enriched[k] {
        assert IsNew(start, v, id) && StartedFrom(start, v, enriched, k, id);
      } else {
        assert v.tasks[id] == start.tasks[id];
      }
    }
  }

  ghost predicate Progress(start: View, v: View, enriched: seq<TaskId>, k: nat, name: string, config: Config, world: World)
    requires k <= |enriched|
  {
    DispatchedTo(start, v, enriched, k, world) && Started(start, v, name, config, world) && TurnsTaken(start, v, enriched, k, world)
  }

  lemma NothingTried(start: View, enriched: seq<TaskId>, name: string, config: Config, world: World)
    requires forall id :: id in enriched ==> id in start.tasks && id !in start.inflight
    ensures Progress(start, start, enriched, 0, name, config, world)
  {
    forall j | 0 <= j < |enriched| ensures enriched[j] in start.tasks && enriched[j] !in start.inflight {
      assert enriched[j] in enriched;
    }
  }

  lemma TryProgresses(start: View, v: View, after: View, enriched: seq<TaskId>, k: nat, name: string, config: Config, world: World)
    requires k < |enriched| && Distinct(enriched) && InOneLease(world, config.leaseMs)
    requires Progress(start, v, enriched, k, name, config, world) && !OverCap(config, start.tasks[enriched[k]])
    requires IsTryOf(v, after, enriched, k, world.inFlight(enriched[k]) || world.wanted(enriched[k]), name, config, world)
    ensures Progress(start, after, enriched, k + 1, name, config, world)
  {
    var runs := world.inFlight(enriched[k]) || world.wanted(enriched[k]);
    TryLeavesRest(start, v, after, enriched, k, runs, name, config, world);
    TryHandles(start, v, after, enriched, k, runs, name, config, world);
    TryStarts(start, v, after, enriched, k, runs, name, config, world);
    TurnsGoOn(start, v, after, enriched, k, name, config, world);
  }

  /** The tasks a cycle has for its tries: claimed, not in flight here, under both caps, with their deployment and vault. */
  ghost predicate IsEnriched(start: View, claimed: seq<TaskId>, enriched: seq<TaskId>, config: Config, world: World) {
    && Distinct(enriched)
    && forall id :: id in enriched <==>
         (id in claimed && id !in start.inflight && id in start.tasks && world.hydrated(id)
          && start.tasks[id].attempts < config.maxAttempts
          && (config.maxInflightRetries == 0 || start.tasks[id].inflightRetries < config.maxInflightRetries))
  }

  /** At one reading of the clock: as many of the earliest-due tasks due and free as the batch has room for. */
  ghost predicate ClaimsEarliest(start: View, claimed: seq<TaskId>, config: Config, now: int) {
    var free := set id | id in start.tasks && start.tasks[id].dueAt <= now
                         && (start.tasks[id].status == Some(PROCESSING) ==>
                               start.tasks[id].lease.Some? && start.tasks[id].lease.value < now);
    && Distinct(claimed) && |claimed| == Min(config.batchSize - |start.inflight|, |free|)
    && (forall id :: id in claimed ==> id in free)
    && forall id, other :: id in claimed && other in free && other !in claimed ==>
         start.tasks[id].dueAt <= start.tasks[other].dueAt
  }

  lemma ClaimIsEarliest(start: View, after: map<TaskId, Task>, claimed: seq<TaskId>, name: string, config: Config, nows: seq<int>,
                        now: int)
    requires |start.inflight| <= config.batchSize <= |nows| && (forall k :: 0 <= k < |nows| ==> nows[k] == now)
    requires IsClaim(start.tasks, after, claimed, name, config.batchSize - |start.inflight|, config.leaseMs, nows)
    requires forall id :: id in start.tasks ==> WellFormed(start.tasks[id])
    ensures ClaimsEarliest(start, claimed, config, now)
  {
    ClaimsTheEarliest(start.tasks, after, claimed, name, config.batchSize - |start.inflight|, config.leaseMs, nows, now);
    ClaimedOnce(start.tasks, after, claimed, name, config.leaseMs, nows);
    var free := set id | id in start.tasks && start.tasks[id].dueAt <= now
                         && (start.tasks[id].status == Some(PROCESSING) ==>
                               start.tasks[id].lease.Some? && start.tasks[id].lease.value < now);
    forall id | id in start.tasks ensures id in free <==> Claimable(start.tasks[id], now) {
      var status := start.tasks[id].status;
      assert status.None? || status.value.PENDING? || status.value.PROCESSING?;
    }
    assert free == ClaimableNow(start.tasks, now);
  }

  lemma SameTurns(start: View, mid: View, v: View, enriched: seq<TaskId>, k: nat, world: World)
    requires k <= |enriched| && mid.locks == start.locks
    requires forall j :: 0 <= j < |enriched| ==>
               enriched[j] in start.tasks && enriched[j] in mid.tasks
               && start.tasks[enriched[j]].deployment == mid.tasks[enriched[j]].deployment
    requires forall j :: 0 <= j < k ==> HadItsTurn(mid, v, enriched, j, world)
    ensures forall j :: 0 <= j < k ==> HadItsTurn(start, v, enriched, j, world)
  {
    forall j | 0 <= j < k ensures HadItsTurn(start, v, enriched, j, world) {
      var deployment := start.tasks[enriched[j]].deployment;
      assert HadItsTurn(mid, v, enriched, j, world);
      assert FirstOf(start, v, enriched, j, deployment) <==> FirstOf(mid, v, enriched, j, deployment);
      assert WasFree(start, deployment, world, j) <==> WasFree(mid, deployment, world, j);
    }
  }

  class TaskConsumer {
    const name: string
    const config: Config
    const queue: TaskQueue
    const locks: LockTable
    var inflight: map<TaskId, string>

    constructor (name: string, config: Config, queue: TaskQueue, locks: LockTable)
      ensures this.name == name && this.config == config && this.queue == queue && this.locks == locks
      ensures inflight == map[]
    {
      this.name, this.config, this.queue, this.locks, inflight := name, config, queue, locks, map[];
    }

    ghost function Now(): View
      reads this, queue, locks
    {
      View(queue.tasks, locks.locks, inflight)
    }

    /** Of the claimed tasks, those not in flight here and under both caps; one over a cap is deleted. */
    method Sift(claimed: seq<TaskId>, wanted: TaskId -> bool) returns (survivors: seq<TaskId>)
      requires queue.Valid() && forall id :: id in claimed ==> Owns(queue.tasks, id, name)
      requires Distinct(claimed)
      modifies queue
      ensures queue.Valid() && queue.tasks.Keys <= old(queue.tasks).Keys && |survivors| <= |claimed|
      ensures Distinct(survivors)
      ensures forall id :: id in survivors <==>
                id in claimed && id !in inflight && id in old(queue.tasks) && !OverCap(config, old(queue.tasks)[id])
      ensures forall id :: id in old(queue.tasks) ==>
                (id in queue.tasks <==> !(id in claimed && id !in inflight && OverCap(config, old(queue.tasks)[id])))
      ensures forall id :: id in queue.tasks ==> queue.tasks[id] == old(queue.tasks)[id]
    {
      survivors := [];
      for k := 0 to |claimed|
        invariant queue.Valid() && queue.tasks.Keys <= old(queue.tasks).Keys
        invariant Distinct(survivors)
        invariant |survivors| <= k && forall id :: id in survivors <==>
          id in claimed[..k] && id !in inflight && id in old(queue.tasks) && !OverCap(config, old(queue.tasks)[id])
        invariant forall id :: id in old(queue.tasks) ==>
          (id in queue.tasks <==> !(id in claimed[..k] && id !in inflight && OverCap(config, old(queue.tasks)[id])))
        invariant forall id :: id in queue.tasks ==> queue.tasks[id] == old(queue.tasks)[id]
      {
        var id := claimed[k];
        assert id !in claimed[..k] && claimed[..k + 1] == claimed[..k] + [id];
        assert Owns(old(queue.tasks), id, name);
        if id in inflight { continue; }
        if OverCap(config, queue.tasks[id]) {
          if wanted(id) { queue.DeleteAny(id); } else { queue.DeleteOwned(id, name); }
          continue;
        }
        survivors := survivors + [id];
      }
      assert claimed[..|claimed|] == claimed;
    }

    /** Lock, count, judge, dispatch; every other way out gives the lock and the claim back. */
    method TryDispatch(id: TaskId, deployment: string, now: int, inFlight: bool, wanted: bool)
      requires queue.Valid()
      modifies this, queue, locks
      ensures queue.Valid() && IsTry(old(Now()), Now(), id, deployment, now, inFlight || wanted, name, config)
    {
      var acquired := locks.AcquireDeploymentLock(deployment, name, config.leaseMs, now);
      if !acquired {
        queue.ReleaseTaskToPending(id, now);
        return;
      }
      var counted := queue.IncrementAttempt(id, name);
      if !counted {
        locks.ReleaseDeploymentLock(deployment, name);
        return;
      }
      if !inFlight && !wanted {
        queue.DeleteOwned(id, name);
        locks.ReleaseDeploymentLock(deployment, name);
        return;
      }
      inflight := inflight[id := deployment];
    }

    /** Claim what still fits the batch. */
    method Fetch(world: World) returns (claimed: seq<TaskId>)
      requires queue.Valid() && |inflight| < config.batchSize <= |world.claimAt| && InOneLease(world, config.leaseMs)
      modifies queue
      ensures queue.Valid()
      ensures IsClaim(old(queue.tasks), queue.tasks, claimed, name, config.batchSize - |inflight|, config.leaseMs, world.claimAt)
      ensures forall id :: id in claimed ==>
                id in old(queue.tasks) && Owns(queue.tasks, id, name) && SameCounts(old(queue.tasks)[id], queue.tasks[id])
    {
      claimed := queue.ClaimTasks(name, config.batchSize - |inflight|, config.leaseMs, world.claimAt);
      forall id | id in claimed
        ensures id in old(queue.tasks) && Owns(queue.tasks, id, name) && SameCounts(old(queue.tasks)[id], queue.tasks[id])
      {
        var k :| 0 <= k < |claimed| && claimed[k] == id;
        assert TookEarliest(old(queue.tasks), queue.tasks, claimed, k, name, config.leaseMs, world.claimAt[k]);
      }
    }

    /** Delete the survivors whose deployment or vault is gone; the rest, in order, are to be dispatched. */
    method DropOrphans(survivors: seq<TaskId>, hydrated: TaskId -> bool) returns (enriched: seq<TaskId>)
      requires queue.Valid() && forall id :: id in survivors ==> Owns(queue.tasks, id, name)
      requires Distinct(survivors)
      modifies queue
      ensures queue.Valid() && queue.tasks.Keys <= old(queue.tasks).Keys && |enriched| <= |survivors|
      ensures Distinct(enriched)
      ensures forall id :: id in enriched <==> id in survivors && hydrated(id)
      ensures forall id :: id in old(queue.tasks) ==> (id in queue.tasks <==> !(id in survivors && !hydrated(id)))
      ensures forall id :: id in queue.tasks ==> queue.tasks[id] == old(queue.tasks)[id]
    {
      enriched := [];
      for k := 0 to |survivors|
        invariant queue.Valid() && queue.tasks.Keys <= old(queue.tasks).Keys
        invariant Distinct(enriched)
        invariant |enriched| <= k && forall id :: id in enriched <==> id in survivors[..k] && hydrated(id)
        invariant forall id :: id in old(queue.tasks) ==> (id in queue.tasks <==> !(id in survivors[..k] && !hydrated(id)))
        invariant forall id :: id in queue.tasks ==> queue.tasks[id] == old(queue.tasks)[id]
      {
        var id := survivors[k];
        assert id !in survivors[..k] && survivors[..k + 1] == survivors[..k] + [id];
        assert Owns(old(queue.tasks), id, name);
        if hydrated(id) { enriched := enriched + [id]; } else { queue.DeleteOwned(id, name); }
      }
      assert survivors[..|survivors|] == survivors;
    }

    /** Dispatch each task in turn, until a stop. */
    method DispatchAll(enriched: seq<TaskId>, world: World)
      requires queue.Valid() && InOneLease(world, config.leaseMs)
      requires Distinct(enriched)
      requires forall id :: id in enriched ==> Owns(queue.tasks, id, name) && id !in inflight && !OverCap(config, queue.tasks[id])
      modifies this, queue, locks
      ensures queue.Valid() && Started(old(Now()), Now(), name, config, world)
      ensures queue.tasks.Keys <= old(queue.tasks).Keys && |inflight| <= |old(inflight)| + |enriched|
      ensures forall id :: IsNew(old(Now()), Now(), id) ==> id in enriched
      ensures forall id :: id in old(queue.tasks) && id !in enriched ==> id in queue.tasks && queue.tasks[id] == old(queue.tasks)[id]
      ensures world.handled >= |enriched| ==> forall id :: id in enriched ==> id in inflight || LetGo(queue.tasks, id)
      ensures forall k :: 0 <= k < |enriched| && k < world.handled ==> HadItsTurn(old(Now()), Now(), enriched, k, world)
    {
      ghost var start := Now();
      NothingTried(start, enriched, name, config, world);
      var count := if world.handled < |enriched| then world.handled else |enriched|;
      for k := 0 to count
        invariant queue.Valid() && Progress(start, Now(), enriched, k, name, config, world)
      {
        var id := enriched[k];
        ghost var before := Now();
        assert id in enriched;
        var inFlight, wanted := world.inFlight(id), world.wanted(id);
        TryDispatch(id, queue.tasks[id].deployment, world.lockAt(k), inFlight, wanted);
        TryProgresses(start, before, Now(), enriched, k, name, config, world);
      }
    }

    /** Claim, sift, and drop the orphans: what is left is to be dispatched, and the rest is in flight already or gone. */
    method Gather(world: World) returns (claimed: seq<TaskId>, enriched: seq<TaskId>, ghost fetched: map<TaskId, Task>)
      requires queue.Valid() && |inflight| < config.batchSize <= |world.claimAt| && InOneLease(world, config.leaseMs)
      modifies queue
      ensures queue.Valid() && |inflight| + |enriched| <= config.batchSize && |enriched| <= |claimed|
      ensures Distinct(enriched)
      ensures forall id :: id in enriched ==>
                && id in claimed && id !in inflight && id in old(queue.tasks) && Owns(queue.tasks, id, name)
                && SameCounts(old(queue.tasks)[id], queue.tasks[id]) && !OverCap(config, queue.tasks[id])
      ensures forall id :: id in old(queue.tasks) && id !in claimed ==> id in queue.tasks && queue.tasks[id] == old(queue.tasks)[id]
      ensures forall id :: id in claimed && id !in enriched ==> id in inflight || id !in queue.tasks
      ensures IsClaim(old(queue.tasks), fetched, claimed, name, config.batchSize - |inflight|, config.leaseMs, world.claimAt)
      ensures IsEnriched(old(Now()), claimed, enriched, config, world)
    {
      claimed := Fetch(world);
      fetched := queue.tasks;
      ClaimedOnce(old(queue.tasks), queue.tasks, claimed, name, config.leaseMs, world.claimAt);
      var survivors := Sift(claimed, world.wanted);
      enriched := DropOrphans(survivors, world.hydrated);
    }

    /**
     * A whole cycle. It claims what its batch has room for, earliest due first.
     * What it starts is under both caps, counted once, claimed and locked by this
     * consumer, and one to a deployment; the batch is never exceeded; and, unless
     * stopped midway, every task it claimed is in flight or let go, and every one
     * that could run at its turn was started.
     */
    method FetchNewTasksCycle(world: World, stopped: bool)
      returns (ghost claimed: seq<TaskId>, ghost enriched: seq<TaskId>, ghost fetched: map<TaskId, Task>)
      requires queue.Valid() && config.batchSize <= |world.claimAt| && InOneLease(world, config.leaseMs)
      modifies this, queue, locks
      ensures queue.Valid() && Started(old(Now()), Now(), name, config, world)
      ensures |old(inflight)| <= config.batchSize ==> |inflight| <= config.batchSize
      ensures forall id :: IsNew(old(Now()), Now(), id) ==> id in claimed
      ensures forall id :: id in old(queue.tasks) && id !in claimed ==> id in queue.tasks && queue.tasks[id] == old(queue.tasks)[id]
      ensures world.handled >= |claimed| ==> forall id :: id in claimed ==> id in inflight || LetGo(queue.tasks, id)
      ensures stopped || |old(inflight)| >= config.batchSize ==> Now() == old(Now()) && claimed == []
      ensures !stopped && |old(inflight)| < config.batchSize ==>
                && IsClaim(old(queue.tasks), fetched, claimed, name, config.batchSize - |old(inflight)|, config.leaseMs, world.claimAt)
                && (forall now :: (forall k :: 0 <= k < |world.claimAt| ==> world.claimAt[k] == now) ==>
                      ClaimsEarliest(old(Now()), claimed, config, now))
                && IsEnriched(old(Now()), claimed, enriched, config, world)
                && forall k :: 0 <= k < |enriched| && k < world.handled ==> HadItsTurn(old(Now()), Now(), enriched, k, world)
    {
      claimed, enriched, fetched := [], [], queue.tasks;
      if stopped || |inflight| >= config.batchSize { return; }
      ghost var start := Now();
      var gathered, toTry, claim := Gather(world);
      claimed, enriched, fetched := gathered, toTry, claim;
      forall now | forall k :: 0 <= k < |world.claimAt| ==> world.claimAt[k] == now
        ensures ClaimsEarliest(start, claimed, config, now)
      {
        ClaimIsEarliest(start, fetched, claimed, name, config, world.claimAt, now);
      }
      ghost var mid := Now();
      DispatchAll(toTry, world);
      StartedSince(start, mid, Now(), name, config, world);
      SameTurns(start, mid, Now(), enriched, Min(|enriched|, world.handled), world);
    }
  }
}
