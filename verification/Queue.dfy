/** The stored task queue: claims with a lease, transitions fenced on the claimer, and deployment locks. */
module Queue {
  import opened Prelude

  type TaskId = nat

  datatype Status = PENDING | PROCESSING

  /**
   * A task document. A status may be missing (a document older than statuses);
   * `request` is a LIST's pending reservation request, `reservation` the nodes
   * that filled it and when their hold ends.
   */
  datatype Task = Task(
    deployment: string, dueAt: int, status: Option<Status>, claimedBy: Option<string>, lease: Option<int>,
    attempts: int, inflightRetries: int, request: Option<Request>, reservation: Option<Fill>)

  /** `since` is when host-manager first said it queued the request. */
  datatype Request = Request(since: Option<int>)

  datatype ReservedNode = ReservedNode(node: string, market: string)

  datatype Fill = Fill(nodes: seq<ReservedNode>, expiresAt: Option<int>)

  const REQUEUE_DELAY_MS := 1_000
  const INFLIGHT_RETRY_DEFAULT_MS := 5_000

  /** Due, and free: pending, without a status, or held under a lease that ran out. */
  predicate Claimable(task: Task, now: int) {
    && task.dueAt <= now
    && (task.status.None? || task.status == Some(PENDING)
        || (task.status == Some(PROCESSING) && task.lease.Some? && task.lease.value < now))
  }

  /** Processing exactly when someone holds it under a lease. */
  predicate WellFormed(task: Task) {
    (task.status == Some(PROCESSING) <==> task.claimedBy.Some?) && (task.claimedBy.Some? <==> task.lease.Some?)
  }

  function FreeFrom(task: Task): int {
    if task.lease.Some? then Max(task.dueAt, task.lease.value + 1) else task.dueAt
  }

  /** No stored task is stranded: from some moment on it can be claimed, until someone does. */
  lemma NoneStranded(task: Task, now: int)
    requires WellFormed(task) && FreeFrom(task) <= now
    ensures Claimable(task, now)
  {
    if task.status.Some? && task.status.value.PROCESSING? { assert task.lease.Some?; }
    else { assert task.status.None? || task.status.value.PENDING?; }
  }

  function Claim(task: Task, consumer: string, now: int, leaseMs: nat): Task {
    task.(status := Some(PROCESSING), claimedBy := Some(consumer), lease := Some(now + leaseMs))
  }

  function Freed(task: Task, dueAt: int): Task {
    task.(status := Some(PENDING), dueAt := dueAt, claimedBy := None, lease := None)
  }

  predicate Owns(tasks: map<TaskId, Task>, id: TaskId, consumer: string) {
    id in tasks && tasks[id].claimedBy == Some(consumer)
  }

  function Incremented(tasks: map<TaskId, Task>, id: TaskId, consumer: string): map<TaskId, Task> {
    if Owns(tasks, id, consumer) then tasks[id := tasks[id].(attempts := tasks[id].attempts + 1)] else tasks
  }

  function Rescheduled(tasks: map<TaskId, Task>, id: TaskId, consumer: string, dueAt: int): map<TaskId, Task> {
    if Owns(tasks, id, consumer) then
      tasks[id := Freed(tasks[id], dueAt).(attempts := tasks[id].attempts - 1, inflightRetries := tasks[id].inflightRetries + 1)]
    else tasks
  }

  /** One of the two releases of a park: the first also demands a recorded request. */
  predicate ParkMatches(tasks: map<TaskId, Task>, id: TaskId, consumer: string, onRequest: bool) {
    Owns(tasks, id, consumer) && (onRequest ==> tasks[id].request.Some?)
  }

  function ParkReleased(tasks: map<TaskId, Task>, id: TaskId, consumer: string, onRequest: bool,
                        dueAt: int): map<TaskId, Task> {
    if ParkMatches(tasks, id, consumer, onRequest) then
      tasks[id := Freed(tasks[id], dueAt).(attempts := tasks[id].attempts - 1)]
    else tasks
  }

  /** Handed back without running, whoever holds it. */
  function HandedBack(tasks: map<TaskId, Task>, id: TaskId, now: int): map<TaskId, Task> {
    if id in tasks then tasks[id := Freed(tasks[id], now + REQUEUE_DELAY_MS)] else tasks
  }

  function Deleted(tasks: map<TaskId, Task>, id: TaskId, consumer: string): map<TaskId, Task> {
    if Owns(tasks, id, consumer) then tasks - {id} else tasks
  }

  /** Not claimable at `now`, or due no earlier than `task`. */
  predicate NotBefore(task: Task, other: Task, now: int) { Claimable(other, now) ==> task.dueAt <= other.dueAt }

  /** The k-th claim took an earliest-due one of the tasks claimable and not taken before it. */
  ghost predicate TookEarliest(before: map<TaskId, Task>, after: map<TaskId, Task>, claimed: seq<TaskId>, k: nat,
                               consumer: string, leaseMs: nat, now: int)
    requires k < |claimed| && after.Keys == before.Keys
  {
    var id := claimed[k];
    && id in before && id !in claimed[..k]
    && Claimable(before[id], now) && after[id] == Claim(before[id], consumer, now, leaseMs)
    && forall other :: other in before && other !in claimed[..k] ==> NotBefore(before[id], before[other], now)
  }

  /** The tasks claimed so far; every other task is as it was. */
  ghost predicate ClaimedSoFar(before: map<TaskId, Task>, after: map<TaskId, Task>, claimed: seq<TaskId>,
                               consumer: string, leaseMs: nat, nows: seq<int>)
    requires |claimed| <= |nows|
  {
    && after.Keys == before.Keys
    && (forall k :: 0 <= k < |claimed| ==> TookEarliest(before, after, claimed, k, consumer, leaseMs, nows[k]))
    && (forall id :: id in before && id !in claimed ==> after[id] == before[id])
  }

  ghost predicate IsClaim(before: map<TaskId, Task>, after: map<TaskId, Task>, claimed: seq<TaskId>,
                          consumer: string, count: nat, leaseMs: nat, nows: seq<int>)
    requires count <= |nows|
  {
    && |claimed| <= count && ClaimedSoFar(before, after, claimed, consumer, leaseMs, nows)
    && (|claimed| < count ==> forall id :: id in before && id !in claimed ==> !Claimable(before[id], nows[|claimed|]))
  }

  lemma ClaimedOnce(before: map<TaskId, Task>, after: map<TaskId, Task>, claimed: seq<TaskId>,
                    consumer: string, leaseMs: nat, nows: seq<int>)
    requires |claimed| <= |nows| && ClaimedSoFar(before, after, claimed, consumer, leaseMs, nows)
    ensures Distinct(claimed)
  {
    forall i, j | 0 <= i < j < |claimed| ensures claimed[i] != claimed[j] {
      assert TookEarliest(before, after, claimed, j, consumer, leaseMs, nows[j]);
      assert claimed[..j][i] == claimed[i];
    }
  }

  /** What was claimed already is under a live lease, so a claimable task is one not claimed yet. */
  lemma NotClaimedYet(before: map<TaskId, Task>, after: map<TaskId, Task>, claimed: seq<TaskId>, id: TaskId,
                      consumer: string, leaseMs: nat, nows: seq<int>)
    requires |claimed| < |nows| && ClaimedSoFar(before, after, claimed, consumer, leaseMs, nows)
    requires forall i, j :: 0 <= i < |nows| && 0 <= j < |nows| ==> nows[j] <= nows[i] + leaseMs
    requires id in after && Claimable(after[id], nows[|claimed|])
    ensures id !in claimed
  {
    forall k | 0 <= k < |claimed| ensures claimed[k] != id {
      assert TookEarliest(before, after, claimed, k, consumer, leaseMs, nows[k]);
      assert nows[|claimed|] <= nows[k] + leaseMs;
      assert !Claimable(after[claimed[k]], nows[|claimed|]);
    }
  }

  lemma ClaimStep(before: map<TaskId, Task>, after: map<TaskId, Task>, claimed: seq<TaskId>, id: TaskId,
                  consumer: string, leaseMs: nat, nows: seq<int>)
    requires |claimed| < |nows| && ClaimedSoFar(before, after, claimed, consumer, leaseMs, nows)
    requires id in after && id !in claimed && Claimable(after[id], nows[|claimed|])
    requires forall other :: other in after ==> NotBefore(after[id], after[other], nows[|claimed|])
    ensures ClaimedSoFar(before, after[id := Claim(after[id], consumer, nows[|claimed|], leaseMs)], claimed + [id],
                         consumer, leaseMs, nows)
  {
    var n, more := |claimed|, claimed + [id];
    var later := after[id := Claim(after[id], consumer, nows[n], leaseMs)];
    assert later.Keys == after.Keys;
    forall k | 0 <= k < |more| ensures TookEarliest(before, later, more, k, consumer, leaseMs, nows[k]) {
      assert more[..k] == claimed[..k];
      if k < n {
        assert more[k] == claimed[k] && claimed[k] != id;
        assert TookEarliest(before, after, claimed, k, consumer, leaseMs, nows[k]);
      } else {
        assert claimed[..n] == claimed;
        forall other | other in before && other !in claimed ensures NotBefore(before[id], before[other], nows[n]) {
          assert NotBefore(after[id], after[other], nows[n]);
        }
      }
    }
    forall other | other in before && other !in more ensures later[other] == before[other] {
      assert other !in claimed && other != id;
    }
  }

  /** With nothing claimable left, nothing unclaimed was claimable before. */
  lemma NoneLeft(before: map<TaskId, Task>, after: map<TaskId, Task>, claimed: seq<TaskId>,
                 consumer: string, leaseMs: nat, nows: seq<int>)
    requires |claimed| < |nows| && ClaimedSoFar(before, after, claimed, consumer, leaseMs, nows)
    requires forall id :: id in after ==> !Claimable(after[id], nows[|claimed|])
    ensures forall id :: id in before && id !in claimed ==> !Claimable(before[id], nows[|claimed|])
  {
    forall id | id in before && id !in claimed ensures !Claimable(before[id], nows[|claimed|]) { assert after[id] == before[id]; }
  }

  /** A claim in the documents' own terms. */
  lemma ClaimIs(before: map<TaskId, Task>, after: map<TaskId, Task>, claimed: seq<TaskId>, consumer: string, count: nat,
                leaseMs: nat, nows: seq<int>)
    requires count <= |nows| && IsClaim(before, after, claimed, consumer, count, leaseMs, nows)
    requires forall id :: id in before ==> WellFormed(before[id])
    ensures forall k :: 0 <= k < |claimed| ==>
              && claimed[k] in before && claimed[k] in after
              && var task := before[claimed[k]];
                 && task.dueAt <= nows[k]
                 && (task.status == Some(PROCESSING) ==> task.lease.Some? && task.lease.value < nows[k])
                 && after[claimed[k]] == task.(status := Some(PROCESSING), claimedBy := Some(consumer), lease := Some(nows[k] + leaseMs))
    ensures |claimed| < count ==>
              forall id :: id in before && id !in claimed ==>
                var task, now := before[id], nows[|claimed|];
                now < task.dueAt || (task.status == Some(PROCESSING) && task.lease.Some? && now <= task.lease.value)
  {
    forall k | 0 <= k < |claimed|
      ensures claimed[k] in before && Claimable(before[claimed[k]], nows[k])
              && after[claimed[k]] == Claim(before[claimed[k]], consumer, nows[k], leaseMs)
    {
      assert TookEarliest(before, after, claimed, k, consumer, leaseMs, nows[k]);
    }
    if |claimed| < count {
      forall id | id in before && id !in claimed
        ensures var task, now := before[id], nows[|claimed|];
          now < task.dueAt || (task.status == Some(PROCESSING) && task.lease.Some? && now <= task.lease.value)
      {
        assert !Claimable(before[id], nows[|claimed|]);
        assert before[id].status.None? || before[id].status.value.PENDING? || before[id].status.value.PROCESSING?;
      }
    }
  }

  ghost function ClaimableNow(tasks: map<TaskId, Task>, now: int): set<TaskId> {
    set id | id in tasks && Claimable(tasks[id], now)
  }

  lemma SubsetSize(small: set<TaskId>, large: set<TaskId>)
    requires small <= large
    ensures |small| <= |large| && (large - small == {} ==> |small| == |large|)
  {
    assert |large - small| == |large| - |small|;
  }

  lemma ClaimedAt(before: map<TaskId, Task>, after: map<TaskId, Task>, claimed: seq<TaskId>,
                  consumer: string, count: nat, leaseMs: nat, nows: seq<int>, now: int, id: TaskId)
    requires count <= |nows| && (forall k :: 0 <= k < |nows| ==> nows[k] == now)
    requires IsClaim(before, after, claimed, consumer, count, leaseMs, nows) && id in claimed
    ensures id in before && Claimable(before[id], now)
    ensures forall other :: other in before && other !in claimed ==> NotBefore(before[id], before[other], now)
  {
    var k :| 0 <= k < |claimed| && claimed[k] == id;
    assert TookEarliest(before, after, claimed, k, consumer, leaseMs, nows[k]);
    assert forall other :: other !in claimed ==> other !in claimed[..k];
  }

  /** Within one reading of the clock, a claim takes exactly the earliest-due claimable tasks, as many as it may. */
  lemma ClaimsTheEarliest(before: map<TaskId, Task>, after: map<TaskId, Task>, claimed: seq<TaskId>,
                          consumer: string, count: nat, leaseMs: nat, nows: seq<int>, now: int)
    requires count <= |nows| && (forall k :: 0 <= k < |nows| ==> nows[k] == now)
    requires IsClaim(before, after, claimed, consumer, count, leaseMs, nows)
    ensures |claimed| == Min(count, |ClaimableNow(before, now)|)
    ensures forall id :: id in claimed ==> id in ClaimableNow(before, now)
    ensures forall id, other :: id in claimed && other in ClaimableNow(before, now) && other !in claimed ==>
              before[id].dueAt <= before[other].dueAt
  {
    var taken, free := SetOf(claimed), ClaimableNow(before, now);
    ClaimedOnce(before, after, claimed, consumer, leaseMs, nows);
    DistinctCount(claimed);
    forall id | id in claimed
      ensures id in free
      ensures forall other :: other in free && other !in claimed ==> before[id].dueAt <= before[other].dueAt
    {
      ClaimedAt(before, after, claimed, consumer, count, leaseMs, nows, now, id);
      assert forall other :: other in free && other !in claimed ==> NotBefore(before[id], before[other], now);
    }
    if |claimed| < count { assert free - taken == {}; }
    SubsetSize(taken, free);
  }

  /** The tasks collection. */
  class TaskQueue {
    var tasks: map<TaskId, Task>

    ghost predicate Valid()
      reads this
    {
      forall id :: id in tasks ==> WellFormed(tasks[id])
    }

    constructor ()
      ensures Valid() && tasks == map[]
    {
      tasks := map[];
    }

    /** Some earliest-due task claimable now, if there is one. */
    method FindEarliest(now: int) returns (found: Option<TaskId>)
      ensures found.None? ==> forall id :: id in tasks ==> !Claimable(tasks[id], now)
      ensures found.Some? ==> found.value in tasks && Claimable(tasks[found.value], now)
                              && forall id :: id in tasks ==> NotBefore(tasks[found.value], tasks[id], now)
    {
      found := None;
      var rest := tasks.Keys;
      while rest != {}
        invariant rest <= tasks.Keys
        invariant found.None? ==> forall id :: id in tasks && id !in rest ==> !Claimable(tasks[id], now)
        invariant found.Some? ==> found.value in tasks && Claimable(tasks[found.value], now)
        invariant found.Some? ==> forall id :: id in tasks && id !in rest ==> NotBefore(tasks[found.value], tasks[id], now)
        decreases |rest|
      {
        var id :| id in rest;
        rest := rest - {id};
        if Claimable(tasks[id], now) && (found.None? || tasks[id].dueAt < tasks[found.value].dueAt) {
          found := Some(id);
        }
      }
    }

    /** Claim up to `count` due tasks, one atomic find-and-update at a time; `nows` are the clock readings. */
    method ClaimTasks(consumer: string, count: nat, leaseMs: nat, nows: seq<int>) returns (claimed: seq<TaskId>)
      requires Valid() && count <= |nows|
      requires forall i, j :: 0 <= i < |nows| && 0 <= j < |nows| ==> nows[j] <= nows[i] + leaseMs
      modifies this
      ensures Valid() && IsClaim(old(tasks), tasks, claimed, consumer, count, leaseMs, nows)
      ensures forall k :: 0 <= k < |claimed| ==>
                && claimed[k] in old(tasks) && claimed[k] in tasks
                && var task := old(tasks)[claimed[k]];
                   && task.dueAt <= nows[k]
                   && (task.status == Some(PROCESSING) ==> task.lease.Some? && task.lease.value < nows[k])
                   && tasks[claimed[k]] == task.(status := Some(PROCESSING), claimedBy := Some(consumer), lease := Some(nows[k] + leaseMs))
      ensures |claimed| < count ==>
                forall id :: id in old(tasks) && id !in claimed ==>
                  var task, now := old(tasks)[id], nows[|claimed|];
                  now < task.dueAt || (task.status == Some(PROCESSING) && task.lease.Some? && now <= task.lease.value)
    {
      ghost var before := tasks;
      claimed := [];
      for i := 0 to count
        invariant Valid() && |claimed| == i && ClaimedSoFar(before, tasks, claimed, consumer, leaseMs, nows)
      {
        var found := FindEarliest(nows[i]);
        if found.None? {
          NoneLeft(before, tasks, claimed, consumer, leaseMs, nows);
          break;
        }
        NotClaimedYet(before, tasks, claimed, found.value, consumer, leaseMs, nows);
        ClaimStep(before, tasks, claimed, found.value, consumer, leaseMs, nows);
        tasks := tasks[found.value := Claim(tasks[found.value], consumer, nows[i], leaseMs)];
        claimed := claimed + [found.value];
      }
      ClaimIs(before, tasks, claimed, consumer, count, leaseMs, nows);
    }

    method IncrementAttempt(id: TaskId, consumer: string) returns (matched: bool)
      requires Valid()
      modifies this
      ensures Valid() && tasks == Incremented(old(tasks), id, consumer)
      ensures matched <==> id in old(tasks) && old(tasks)[id].claimedBy == Some(consumer)
      ensures tasks == if matched then old(tasks)[id := old(tasks)[id].(attempts := old(tasks)[id].attempts + 1)] else old(tasks)
    {
      matched := id in tasks && tasks[id].claimedBy == Some(consumer);
      if matched { tasks := tasks[id := tasks[id].(attempts := tasks[id].attempts + 1)]; }
    }

    method RescheduleInflight(id: TaskId, consumer: string, retryAfterMs: Option<int>, now: int)
      requires Valid()
      modifies this
      ensures Valid()
      ensures tasks == Rescheduled(old(tasks), id, consumer,
                                   now + if retryAfterMs.Some? then retryAfterMs.value else INFLIGHT_RETRY_DEFAULT_MS)
      ensures id in old(tasks) && old(tasks)[id].claimedBy == Some(consumer) ==>
                var task, dueAt := old(tasks)[id], now + if retryAfterMs.Some? then retryAfterMs.value else 5_000;
                tasks == old(tasks)[id := task.(status := Some(PENDING), dueAt := dueAt, claimedBy := None, lease := None,
                                                attempts := task.attempts - 1, inflightRetries := task.inflightRetries + 1)]
      ensures !(id in old(tasks) && old(tasks)[id].claimedBy == Some(consumer)) ==> tasks == old(tasks)
    {
      var delay := if retryAfterMs.Some? then retryAfterMs.value else INFLIGHT_RETRY_DEFAULT_MS;
      if id in tasks && tasks[id].claimedBy == Some(consumer) {
        var task := tasks[id];
        tasks := tasks[id := Task(task.deployment, now + delay, Some(PENDING), None, None, task.attempts - 1,
                                  task.inflightRetries + 1, task.request, task.reservation)];
      }
    }

    method ParkRelease(id: TaskId, consumer: string, onRequest: bool, dueAt: int) returns (matched: bool)
      requires Valid()
      modifies this
      ensures Valid() && tasks == ParkReleased(old(tasks), id, consumer, onRequest, dueAt)
      ensures matched <==> ParkMatches(old(tasks), id, consumer, onRequest)
    {
      matched := id in tasks && tasks[id].claimedBy == Some(consumer) && (!onRequest || tasks[id].request.Some?);
      if matched {
        var task := tasks[id];
        tasks := tasks[id := Task(task.deployment, dueAt, Some(PENDING), None, None, task.attempts - 1,
                                  task.inflightRetries, task.request, task.reservation)];
      }
    }

    /** A task whose request was filled mid-run is released due now, any other for the renewal. */
    method ParkTask(id: TaskId, consumer: string, delayMs: int, now: int, later: int)
      requires Valid()
      modifies this
      ensures Valid()
      ensures id in old(tasks) && old(tasks)[id].claimedBy == Some(consumer) ==>
                var task := old(tasks)[id];
                tasks == old(tasks)[id := task.(status := Some(PENDING), claimedBy := None, lease := None, attempts := task.attempts - 1,
                                                dueAt := if task.request.Some? then now + delayMs else later)]
      ensures !(id in old(tasks) && old(tasks)[id].claimedBy == Some(consumer)) ==> tasks == old(tasks)
    {
      var matched := ParkRelease(id, consumer, true, now + delayMs);
      if !matched { var _ := ParkRelease(id, consumer, false, later); }
    }

    /** Not fenced: whoever holds the task loses it. */
    method ReleaseTaskToPending(id: TaskId, now: int)
      requires Valid()
      modifies this
      ensures Valid() && tasks == HandedBack(old(tasks), id, now)
      ensures id in old(tasks) ==>
                tasks == old(tasks)[id := old(tasks)[id].(status := Some(PENDING), dueAt := now + 1_000, claimedBy := None, lease := None)]
      ensures id !in old(tasks) ==> tasks == old(tasks)
    {
      if id in tasks {
        tasks := tasks[id := tasks[id].(status := Some(PENDING), dueAt := now + REQUEUE_DELAY_MS, claimedBy := None, lease := None)];
      }
    }

    /** A completed, unwanted or orphaned task, deleted only by its claimer. */
    method DeleteOwned(id: TaskId, consumer: string)
      requires Valid()
      modifies this
      ensures Valid() && tasks == Deleted(old(tasks), id, consumer)
      ensures tasks == if id in old(tasks) && old(tasks)[id].claimedBy == Some(consumer) then old(tasks) - {id} else old(tasks)
    {
      if id in tasks && tasks[id].claimedBy == Some(consumer) { tasks := tasks - {id}; }
    }

    /** A task over its cap, deleted whoever holds it. */
    method DeleteAny(id: TaskId)
      requires Valid()
      modifies this
      ensures Valid() && tasks == old(tasks) - {id}
    {
      tasks := tasks - {id};
    }
  }

  datatype Lock = Lock(holder: string, expiresAt: int)

  /** Free to take: no lock, or one that expired. Not re-entrant. */
  predicate Lockable(locks: map<string, Lock>, deployment: string, now: int) {
    deployment !in locks || locks[deployment].expiresAt < now
  }

  function Unlocked(locks: map<string, Lock>, deployment: string, holder: string): map<string, Lock> {
    if deployment in locks && locks[deployment].holder == holder then locks - {deployment} else locks
  }

  /** The deployment locks. */
  class LockTable {
    var locks: map<string, Lock>

    constructor ()
      ensures locks == map[]
    {
      locks := map[];
    }

    method AcquireDeploymentLock(deployment: string, holder: string, leaseMs: nat, now: int) returns (acquired: bool)
      modifies this
      ensures acquired <==> deployment !in old(locks) || old(locks)[deployment].expiresAt < now
      ensures locks == if acquired then old(locks)[deployment := Lock(holder, now + leaseMs)] else old(locks)
    {
      if deployment in locks && locks[deployment].expiresAt >= now { return false; }
      locks := locks[deployment := Lock(holder, now + leaseMs)];
      acquired := true;
    }

    method ReleaseDeploymentLock(deployment: string, holder: string)
      modifies this
      ensures locks == if deployment in old(locks) && old(locks)[deployment].holder == holder then old(locks) - {deployment}
                       else old(locks)
    {
      if deployment in locks && locks[deployment].holder == holder { locks := locks - {deployment}; }
    }
  }
}
