/** What every interleaving of consumers keeps. */
module ConsumerSafety {
  import opened Prelude
  import opened Queue
  import opened Consumers

  // ----- claims -----

  ghost predicate TasksOk(s: State) {
    forall id :: id in s.tasks ==> WellFormed(s.tasks[id])
  }

  lemma StepKeepsTasks(s: State, e: Event)
    requires TasksOk(s) && Enabled(s, e)
    ensures TasksOk(Next(s, e))
  {
    var tasks := TasksNext(s, e);
    forall id | id in tasks ensures WellFormed(tasks[id]) {}
  }

  // ----- capacity -----

  /** Past the caps a task is not in flight here, and runs, items and what may still be claimed fit the batch. */
  ghost predicate ConsumerOk(c: Consumer, batchSize: nat) {
    && (forall id :: id in c.items && c.items[id].stage != Fetched ==> id !in c.runs)
    && match c.capacity
       case None => c.items == map[] && |c.runs| <= batchSize
       case Some(n) => |c.runs| + |c.items| + n <= batchSize
  }

  ghost predicate ConsumersOk(consumers: map<string, Consumer>, batchSize: nat) {
    forall who :: who in consumers ==> ConsumerOk(consumers[who], batchSize)
  }

  lemma PutSize<V>(m: map<TaskId, V>, id: TaskId, v: V)
    ensures |m[id := v]| == |m| + (if id in m then 0 else 1)
  {
    assert m[id := v].Keys == m.Keys + {id};
  }

  lemma DropSize<V>(m: map<TaskId, V>, id: TaskId)
    ensures |m - {id}| == |m| - (if id in m then 1 else 0)
  {
    assert (m - {id}).Keys == m.Keys - {id};
  }

  lemma ClaimFits(c: Consumer, id: TaskId, item: Item, batchSize: nat)
    requires ConsumerOk(c, batchSize) && c.capacity.Some? && c.capacity.value > 0 && item.stage == Fetched
    ensures ConsumerOk(c.(capacity := Some(c.capacity.value - 1), items := c.items[id := item]), batchSize)
  {
    PutSize(c.items, id, item);
  }

  lemma StageFits(c: Consumer, id: TaskId, stage: Stage, batchSize: nat)
    requires ConsumerOk(c, batchSize) && id in c.items && id !in c.runs
    ensures ConsumerOk(c.(items := c.items[id := c.items[id].(stage := stage)]), batchSize)
  {
    PutSize(c.items, id, c.items[id].(stage := stage));
  }

  lemma ExitFits(c: Consumer, id: TaskId, batchSize: nat)
    requires ConsumerOk(c, batchSize) && id in c.items
    ensures ConsumerOk(c.(items := c.items - {id}), batchSize)
  {
    DropSize(c.items, id);
  }

  lemma RunFits(c: Consumer, id: TaskId, run: Run, batchSize: nat)
    requires ConsumerOk(c, batchSize) && id in c.runs
    ensures ConsumerOk(c.(runs := c.runs[id := run]), batchSize)
    ensures ConsumerOk(c.(runs := c.runs - {id}), batchSize)
  {
    PutSize(c.runs, id, run);
    DropSize(c.runs, id);
  }

  lemma DispatchFits(c: Consumer, id: TaskId, run: Run, batchSize: nat)
    requires ConsumerOk(c, batchSize) && id in c.items && id !in c.runs
    ensures ConsumerOk(c.(items := c.items - {id}, runs := c.runs[id := run]), batchSize)
  {
    DropSize(c.items, id);
    PutSize(c.runs, id, run);
  }

  lemma CycleFits(s: State, e: Event)
    requires IsCycleEvent(e) && Enabled(s, e)
    requires e.who in s.consumers ==> ConsumerOk(s.consumers[e.who], s.config.batchSize)
    ensures ConsumerOk(ConsumerNext(s, e), s.config.batchSize)
  {
  }

  lemma ConsumerStepKeeps(s: State, e: Event)
    requires IsTaskEvent(e) && Enabled(s, e) && ConsumerOk(s.consumers[e.who], s.config.batchSize)
    ensures ConsumerOk(ConsumerNext(s, e), s.config.batchSize)
  {
    var c, after, batchSize := s.consumers[e.who], ConsumerNext(s, e), s.config.batchSize;
    if e.Fetch? { ClaimFits(c, e.id, after.items[e.id], batchSize); }
    else if IsStageEvent(e) { StageFits(c, e.id, StageNext(s, e), batchSize); }
    else if IsExitEvent(e) { ExitFits(c, e.id, batchSize); }
    else if e.Dispatch? { DispatchFits(c, e.id, after.runs[e.id], batchSize); }
    else if IsPhaseEvent(e) { RunFits(c, e.id, after.runs[e.id], batchSize); }
    else { RunFits(c, e.id, c.runs[e.id], batchSize); }
  }

  lemma PutConsumer(consumers: map<string, Consumer>, who: string, c: Consumer, batchSize: nat)
    requires ConsumersOk(consumers, batchSize) && ConsumerOk(c, batchSize)
    ensures ConsumersOk(consumers[who := c], batchSize)
  {
  }

  lemma StepKeepsConsumers(s: State, e: Event)
    requires ConsumersOk(s.consumers, s.config.batchSize) && Enabled(s, e)
    ensures ConsumersOk(ConsumersNext(s, e), s.config.batchSize)
  {
    if IsCycleEvent(e) || IsTaskEvent(e) {
      if IsCycleEvent(e) { CycleFits(s, e); } else { ConsumerStepKeeps(s, e); }
      PutConsumer(s.consumers, e.who, ConsumerNext(s, e), s.config.batchSize);
    }
  }

  // ----- locks -----

  ghost predicate TokenOk(s: State, who: string, id: TaskId, deployment: string) {
    who in s.consumers && HoldsLock(s.consumers[who], id, deployment) ==>
      && deployment in s.locks && s.locks[deployment].holder == who && s.now <= s.locks[deployment].expiresAt
      && forall other :: HoldsLock(s.consumers[who], other, deployment) ==> other == id
  }

  /** Whoever works under a deployment's lock holds it, unexpired, and alone. */
  ghost predicate LocksOk(s: State) {
    forall who, id, deployment :: TokenOk(s, who, id, deployment)
  }

  /** A consumer's step, a lock taken apart, lets it hold no more than it did. */
  lemma HoldsNoMore(s: State, e: Event, id: TaskId, deployment: string)
    requires (IsCycleEvent(e) || IsTaskEvent(e)) && Enabled(s, e) && !e.TakeLock?
    requires HoldsLock(ConsumerNext(s, e), id, deployment)
    ensures e.who in s.consumers && HoldsLock(s.consumers[e.who], id, deployment)
  {
  }

  lemma TakeLockKeeps(s: State, who: string, id: TaskId)
    requires LocksOk(s) && ConsumersOk(s.consumers, s.config.batchSize) && Enabled(s, TakeLock(who, id))
    ensures LocksOk(Next(s, TakeLock(who, id)))
  {
    var t := Next(s, TakeLock(who, id));
    var taken := s.consumers[who].items[id].deployment;
    assert ConsumerOk(s.consumers[who], s.config.batchSize);
    assert id !in s.consumers[who].runs;
    forall w, i, d | w in t.consumers && HoldsLock(t.consumers[w], i, d)
      ensures if d == taken then w == who && i == id else w in s.consumers && HoldsLock(s.consumers[w], i, d)
    {
      assert TokenOk(s, w, i, d);
    }
    forall w, i, d ensures TokenOk(t, w, i, d) { assert TokenOk(s, w, i, d); }
  }

  lemma UnlockKeeps(s: State, t: State, who: string, id: TaskId, deployment: string)
    requires LocksOk(s) && who in s.consumers && HoldsLock(s.consumers[who], id, deployment)
    requires who in t.consumers && t.consumers == s.consumers[who := t.consumers[who]]
    requires t.now == s.now && t.locks == Unlocked(s.locks, deployment, who)
    requires forall i, d :: HoldsLock(t.consumers[who], i, d) ==> i != id && HoldsLock(s.consumers[who], i, d)
    ensures LocksOk(t)
  {
    assert TokenOk(s, who, id, deployment);
    forall w, i, d ensures TokenOk(t, w, i, d) { assert TokenOk(s, w, i, d); }
  }

  lemma LeaveKeepsLocks(s: State, who: string, id: TaskId)
    requires LocksOk(s) && ConsumersOk(s.consumers, s.config.batchSize) && Enabled(s, Leave(who, id))
    ensures LocksOk(Next(s, Leave(who, id)))
  {
    assert ConsumerOk(s.consumers[who], s.config.batchSize);
    UnlockKeeps(s, Next(s, Leave(who, id)), who, id, s.consumers[who].items[id].deployment);
  }

  lemma ReleaseKeepsLocks(s: State, who: string, id: TaskId)
    requires LocksOk(s) && ConsumersOk(s.consumers, s.config.batchSize) && Enabled(s, ReleaseLock(who, id))
    ensures LocksOk(Next(s, ReleaseLock(who, id)))
  {
    assert ConsumerOk(s.consumers[who], s.config.batchSize);
    UnlockKeeps(s, Next(s, ReleaseLock(who, id)), who, id, s.consumers[who].runs[id].deployment);
  }

  /** A step that neither takes a lock nor gives one back. */
  lemma OtherStepKeepsLocks(s: State, e: Event)
    requires LocksOk(s) && Enabled(s, e) && !e.TakeLock? && !e.Leave? && !e.ReleaseLock?
    ensures LocksOk(Next(s, e))
  {
    var t := Next(s, e);
    assert t.locks == s.locks;
    forall w, i, d | w in t.consumers && HoldsLock(t.consumers[w], i, d)
      ensures w in s.consumers && HoldsLock(s.consumers[w], i, d)
    {
      if (IsCycleEvent(e) || IsTaskEvent(e)) && w == e.who { HoldsNoMore(s, e, i, d); }
    }
    forall w, i, d ensures TokenOk(t, w, i, d) { assert TokenOk(s, w, i, d); }
  }

  lemma StepKeepsLocks(s: State, e: Event)
    requires LocksOk(s) && ConsumersOk(s.consumers, s.config.batchSize) && Enabled(s, e)
    ensures LocksOk(Next(s, e))
  {
    if e.TakeLock? { TakeLockKeeps(s, e.who, e.id); }
    else if e.Leave? { LeaveKeepsLocks(s, e.who, e.id); }
    else if e.ReleaseLock? { ReleaseKeepsLocks(s, e.who, e.id); }
    else { OtherStepKeepsLocks(s, e); }
  }

  // ----- counters -----

  /** A dispatch counted on this task that may still be undone. */
  predicate Owes(c: Consumer, id: TaskId) {
    (id in c.items && c.items[id].stage == Counted)
    || (id in c.runs && c.runs[id].phase in {Working, Retrying, Parking, Reparking})
  }

  function Owing(consumers: map<string, Consumer>, id: TaskId): set<string> {
    set who | who in consumers && Owes(consumers[who], id)
  }

  ghost predicate CountsOk(s: State, id: TaskId)
    requires id in s.tasks
  {
    var task := s.tasks[id];
    && id in s.dispatched && id in s.parked
    && task.attempts + task.inflightRetries + s.parked[id] == s.dispatched[id]
    && |Owing(s.consumers, id)| <= task.attempts <= s.config.maxAttempts
    && (s.config.maxInflightRetries > 0 ==>
          task.attempts + task.inflightRetries <= s.config.maxAttempts + s.config.maxInflightRetries - 1)
  }

  /** While its claim stands, a task's counters are those it was claimed with; past the cap check, under both caps. */
  ghost predicate ItemOk(config: Config, tasks: map<TaskId, Task>, item: Item, who: string, id: TaskId) {
    item.stage in {Fetched, Survivor, Locked} ==>
      && (Owns(tasks, id, who) ==> tasks[id].attempts == item.attempts && tasks[id].inflightRetries == item.inflightRetries)
      && (item.stage != Fetched ==> !CappedItem(config, item))
  }

  ghost predicate ItemsOk(config: Config, tasks: map<TaskId, Task>, consumers: map<string, Consumer>) {
    forall who, id :: who in consumers && id in consumers[who].items ==> ItemOk(config, tasks, consumers[who].items[id], who, id)
  }

  ghost predicate KnownOk(s: State, c: Consumer) {
    forall id :: id in c.items || id in c.runs ==> id in s.dispatched
  }

  ghost predicate CountInv(s: State) {
    && (forall id :: id in s.tasks ==> CountsOk(s, id))
    && ItemsOk(s.config, s.tasks, s.consumers)
    && (forall who :: who in s.consumers ==> KnownOk(s, s.consumers[who]))
  }

  /** Of the consumers owing a dispatch of this task, one step can add or settle its own. */
  lemma OwingChange(before: map<string, Consumer>, who: string, after: Consumer, id: TaskId)
    ensures var owing, now := Owing(before, id), Owing(before[who := after], id);
      && (who in before && Owes(before[who], id) && !Owes(after, id) ==> |now| == |owing| - 1)
      && (Owes(after, id) ==> |now| <= |owing| + 1)
      && (!Owes(after, id) || (who in before && Owes(before[who], id)) ==> |now| <= |owing|)
  {
    var owing, now := Owing(before, id), Owing(before[who := after], id);
    if Owes(after, id) {
      assert now == owing + {who};
    } else {
      assert now == owing - {who};
    }
  }

  /** What a consumer owes after a step it did not owe before only by counting a dispatch it holds the claim for. */
  lemma OwesNoMore(s: State, e: Event, id: TaskId)
    requires (IsCycleEvent(e) || IsTaskEvent(e)) && Enabled(s, e) && Owes(ConsumerNext(s, e), id)
    requires !(e.Count? && e.id == id && Owns(s.tasks, id, e.who))
    ensures e.who in s.consumers && Owes(s.consumers[e.who], id)
  {
  }

  /** The steps that change a counter of the task they are about. */
  predicate Counts(s: State, e: Event, id: TaskId) {
    || (e.Schedule? && e.id == id)
    || ((e.Count? || e.Reschedule?) && e.id == id && Owns(s.tasks, id, e.who))
    || (e.Park? && e.id == id && ParkMatches(s.tasks, id, e.who, RunAt(s, e.who, id, Parking)))
  }

  /** No other step touches a counter. */
  lemma CountersStand(s: State, e: Event, id: TaskId)
    requires Enabled(s, e) && id in TasksNext(s, e) && !Counts(s, e, id)
    ensures id in s.tasks
    ensures TasksNext(s, e)[id].attempts == s.tasks[id].attempts
    ensures TasksNext(s, e)[id].inflightRetries == s.tasks[id].inflightRetries
  {
  }

  lemma TalliesStand(s: State, e: Event, id: TaskId)
    requires Enabled(s, e) && id in s.dispatched && id in s.parked && !Counts(s, e, id)
    ensures id in DispatchedNext(s, e) && id in ParkedNext(s, e)
    ensures DispatchedNext(s, e)[id] == s.dispatched[id] && ParkedNext(s, e)[id] == s.parked[id]
  {
  }

  lemma OtherStepKeepsCounts(s: State, e: Event, id: TaskId)
    requires CountInv(s) && Enabled(s, e) && id in TasksNext(s, e) && !Counts(s, e, id)
    ensures CountsOk(Next(s, e), id)
  {
    CountersStand(s, e, id);
    assert CountsOk(s, id);
    TalliesStand(s, e, id);
    if IsCycleEvent(e) || IsTaskEvent(e) {
      if Owes(ConsumerNext(s, e), id) { OwesNoMore(s, e, id); }
      OwingChange(s.consumers, e.who, ConsumerNext(s, e), id);
    }
  }

  lemma ScheduleKeeps(s: State, id: TaskId, task: Task)
    requires CountInv(s) && Enabled(s, Schedule(id, task))
    ensures CountsOk(Next(s, Schedule(id, task)), id)
  {
    assert Owing(s.consumers, id) == {} by {
      forall who | who in s.consumers ensures !Owes(s.consumers[who], id) { assert KnownOk(s, s.consumers[who]); }
    }
  }

  lemma CountKeeps(s: State, who: string, id: TaskId)
    requires CountInv(s) && Enabled(s, Count(who, id)) && Owns(s.tasks, id, who)
    ensures CountsOk(Next(s, Count(who, id)), id)
  {
    assert CountsOk(s, id) && ItemOk(s.config, s.tasks, s.consumers[who].items[id], who, id);
    OwingChange(s.consumers, who, ConsumerNext(s, Count(who, id)), id);
  }

  /** An undo settles the one dispatch its consumer still owed. */
  lemma UndoSettles(s: State, e: Event)
    requires ConsumersOk(s.consumers, s.config.batchSize) && Enabled(s, e) && (e.Reschedule? || e.Park?) && Counts(s, e, e.id)
    ensures Owes(s.consumers[e.who], e.id) && !Owes(ConsumerNext(s, e), e.id)
  {
    assert ConsumerOk(s.consumers[e.who], s.config.batchSize);
  }

  lemma RescheduleKeeps(s: State, who: string, id: TaskId, dueAt: int)
    requires CountInv(s) && ConsumersOk(s.consumers, s.config.batchSize)
    requires Enabled(s, Reschedule(who, id, dueAt)) && Owns(s.tasks, id, who)
    ensures CountsOk(Next(s, Reschedule(who, id, dueAt)), id)
  {
    assert CountsOk(s, id);
    UndoSettles(s, Reschedule(who, id, dueAt));
    OwingChange(s.consumers, who, ConsumerNext(s, Reschedule(who, id, dueAt)), id);
  }

  lemma ParkKeeps(s: State, who: string, id: TaskId, dueAt: int)
    requires CountInv(s) && ConsumersOk(s.consumers, s.config.batchSize) && Enabled(s, Park(who, id, dueAt))
    requires ParkMatches(s.tasks, id, who, RunAt(s, who, id, Parking))
    ensures CountsOk(Next(s, Park(who, id, dueAt)), id)
  {
    assert CountsOk(s, id);
    UndoSettles(s, Park(who, id, dueAt));
    OwingChange(s.consumers, who, ConsumerNext(s, Park(who, id, dueAt)), id);
  }

  lemma StepKeepsCounts(s: State, e: Event, id: TaskId)
    requires CountInv(s) && ConsumersOk(s.consumers, s.config.batchSize) && Enabled(s, e) && id in TasksNext(s, e)
    ensures CountsOk(Next(s, e), id)
  {
    if !Counts(s, e, id) { OtherStepKeepsCounts(s, e, id); }
    else if e.Schedule? { ScheduleKeeps(s, id, e.task); }
    else if e.Count? { CountKeeps(s, e.who, id); }
    else if e.Reschedule? { RescheduleKeeps(s, e.who, id, e.dueAt); }
    else { ParkKeeps(s, e.who, id, e.dueAt); }
  }

  /** A claim that stands after the step stood before it, on the same counters. */
  lemma ClaimStands(s: State, e: Event, who: string, id: TaskId)
    requires Enabled(s, e) && (e.Fetch? || e.Count? ==> who != e.who || id != e.id)
    requires Owns(TasksNext(s, e), id, who)
    ensures Owns(s.tasks, id, who)
    ensures TasksNext(s, e)[id].attempts == s.tasks[id].attempts
    ensures TasksNext(s, e)[id].inflightRetries == s.tasks[id].inflightRetries
  {
  }

  /** Past a claim or a stage of its own, an item is as it was. */
  lemma ItemUntouched(s: State, e: Event, id: TaskId)
    requires (IsCycleEvent(e) || IsTaskEvent(e)) && Enabled(s, e) && id in ConsumerNext(s, e).items
    requires e.Fetch? || IsStageEvent(e) ==> id != e.id
    ensures e.who in s.consumers && id in s.consumers[e.who].items
    ensures ConsumerNext(s, e).items[id] == s.consumers[e.who].items[id]
  {
  }

  /** A claim copies the counters, and only an item under both caps goes on. */
  lemma ItemMovesOn(s: State, e: Event)
    requires (e.Fetch? || IsStageEvent(e)) && Enabled(s, e) && ItemsOk(s.config, s.tasks, s.consumers)
    ensures ItemOk(s.config, TasksNext(s, e), ConsumerNext(s, e).items[e.id], e.who, e.id)
  {
    if IsStageEvent(e) { assert ItemOk(s.config, s.tasks, s.consumers[e.who].items[e.id], e.who, e.id); }
  }

  lemma ItemStands(s: State, e: Event, who: string, id: TaskId, item: Item)
    requires Enabled(s, e) && (e.Fetch? || e.Count? ==> who != e.who || id != e.id)
    requires ItemOk(s.config, s.tasks, item, who, id)
    ensures ItemOk(s.config, TasksNext(s, e), item, who, id)
  {
    if Owns(TasksNext(s, e), id, who) { ClaimStands(s, e, who, id); }
  }

  lemma StepKeepsItem(s: State, e: Event, who: string, id: TaskId)
    requires ItemsOk(s.config, s.tasks, s.consumers) && Enabled(s, e)
    requires who in ConsumersNext(s, e) && id in ConsumersNext(s, e)[who].items
    ensures ItemOk(s.config, TasksNext(s, e), ConsumersNext(s, e)[who].items[id], who, id)
  {
    if (e.Fetch? || IsStageEvent(e)) && e.who == who && e.id == id {
      ItemMovesOn(s, e);
    } else {
      if (IsCycleEvent(e) || IsTaskEvent(e)) && who == e.who { ItemUntouched(s, e, id); }
      ItemStands(s, e, who, id, s.consumers[who].items[id]);
    }
  }

  lemma NoItemGained(s: State, e: Event, id: TaskId)
    requires IsTaskEvent(e) && Enabled(s, e) && !(e.Fetch? && id == e.id) && id in ConsumerNext(s, e).items
    ensures id in s.consumers[e.who].items
  {
    if IsStageEvent(e) { assert ItemAt(s, e.who, e.id, s.consumers[e.who].items[e.id].stage); }
  }

  lemma NoRunGained(s: State, e: Event, id: TaskId)
    requires IsTaskEvent(e) && Enabled(s, e) && id in ConsumerNext(s, e).runs
    ensures id in s.consumers[e.who].runs || id in s.consumers[e.who].items
  {
    if IsPhaseEvent(e) { assert RunAt(s, e.who, e.id, s.consumers[e.who].runs[e.id].phase); }
  }

  /** A claim apart, a step gives its consumer no item it did not have, and no run but of an item. */
  lemma NothingGained(s: State, e: Event, id: TaskId)
    requires (IsCycleEvent(e) || IsTaskEvent(e)) && Enabled(s, e) && !(e.Fetch? && id == e.id)
    requires id in ConsumerNext(s, e).items || id in ConsumerNext(s, e).runs
    ensures e.who in s.consumers && (id in s.consumers[e.who].items || id in s.consumers[e.who].runs)
  {
    if IsTaskEvent(e) {
      if id in ConsumerNext(s, e).items { NoItemGained(s, e, id); } else { NoRunGained(s, e, id); }
    }
  }

  lemma KnownStays(s: State, e: Event, id: TaskId)
    requires Enabled(s, e) && id in s.dispatched
    ensures id in DispatchedNext(s, e)
  {
  }

  /** Only tasks stored at some time are claimed or run. */
  lemma StepKeepsKnown(s: State, e: Event, who: string)
    requires CountInv(s) && Enabled(s, e) && who in Next(s, e).consumers
    ensures KnownOk(Next(s, e), Next(s, e).consumers[who])
  {
    var c := Next(s, e).consumers[who];
    forall id | id in c.items || id in c.runs ensures id in DispatchedNext(s, e) {
      HadBefore(s, e, who, id);
      KnownStays(s, e, id);
    }
  }

  lemma HadBefore(s: State, e: Event, who: string, id: TaskId)
    requires CountInv(s) && Enabled(s, e) && who in Next(s, e).consumers
    requires id in Next(s, e).consumers[who].items || id in Next(s, e).consumers[who].runs
    ensures id in s.dispatched
  {
    if e.Fetch? && who == e.who && id == e.id {
      assert CountsOk(s, id);
    } else {
      if (IsCycleEvent(e) || IsTaskEvent(e)) && who == e.who { NothingGained(s, e, id); }
      assert KnownOk(s, s.consumers[who]);
    }
  }

  lemma StepKeepsCountInv(s: State, e: Event)
    requires CountInv(s) && ConsumersOk(s.consumers, s.config.batchSize) && Enabled(s, e)
    ensures CountInv(Next(s, e))
  {
    var t := Next(s, e);
    forall id | id in t.tasks ensures CountsOk(t, id) { StepKeepsCounts(s, e, id); }
    forall who, id | who in t.consumers && id in t.consumers[who].items
      ensures ItemOk(t.config, t.tasks, t.consumers[who].items[id], who, id)
    {
      StepKeepsItem(s, e, who, id);
    }
    forall who | who in t.consumers ensures KnownOk(t, t.consumers[who]) { StepKeepsKnown(s, e, who); }
  }

  /** With a finite in-flight cap, dispatches less parks, of every task ever stored, deleted since or not. */
  ghost predicate DispatchesOk(s: State) {
    && s.dispatched.Keys == s.parked.Keys
    && (s.config.maxInflightRetries > 0 ==>
          forall id :: id in s.dispatched ==>
            s.dispatched[id] <= s.parked[id] + s.config.maxAttempts + s.config.maxInflightRetries - 1)
  }

  lemma StepKeepsDispatches(s: State, e: Event)
    requires DispatchesOk(s) && CountInv(s) && Enabled(s, e)
    ensures DispatchesOk(Next(s, e))
  {
    if e.Count? && Owns(s.tasks, e.id, e.who) {
      assert CountsOk(s, e.id);
      CountKeeps(s, e.who, e.id);
    }
  }

  // ----- every run -----

  ghost predicate Inv(s: State) {
    && TasksOk(s) && ConsumersOk(s.consumers, s.config.batchSize) && LocksOk(s)
    && CountInv(s) && DispatchesOk(s)
  }

  lemma StepKeeps(s: State, e: Event)
    requires Inv(s) && Enabled(s, e)
    ensures Inv(Next(s, e))
  {
    StepKeepsTasks(s, e);
    StepKeepsConsumers(s, e);
    StepKeepsLocks(s, e);
    StepKeepsCountInv(s, e);
    StepKeepsDispatches(s, e);
  }

  lemma {:induction false} RunKeeps(s: State, events: seq<Event>)
    requires Inv(s) && IsRun(s, events)
    ensures Inv(Final(s, events)) && Final(s, events).config == s.config
    decreases |events|
  {
    if events != [] {
      StepKeeps(s, events[0]);
      RunKeeps(Next(s, events[0]), events[1..]);
    }
  }

  /** A run that still holds its deployment's lock: at work, or tearing down before the lock is released. */
  predicate UnderWay(s: State, who: string, id: TaskId) {
    who in s.consumers && id in s.consumers[who].runs && s.consumers[who].runs[id].phase !in {Deleting, Released}
  }

  predicate SameDeployment(s: State, who: string, id: TaskId, other: string, id2: TaskId) {
    && UnderWay(s, who, id) && UnderWay(s, other, id2)
    && s.consumers[who].runs[id].deployment == s.consumers[other].runs[id2].deployment
  }

  lemma OneUnderWay(s: State, who: string, id: TaskId, other: string, id2: TaskId)
    requires LocksOk(s) && SameDeployment(s, who, id, other, id2)
    ensures who == other && id == id2
  {
    var deployment := s.consumers[who].runs[id].deployment;
    assert HoldsLock(s.consumers[who], id, deployment) && HoldsLock(s.consumers[other], id2, deployment);
    assert TokenOk(s, who, id, deployment) && TokenOk(s, other, id2, deployment);
  }

  /**
   * For every interleaving: a stored task's counters add up to its dispatches
   * less its parks, `attempts` stays between zero and its cap, and with a finite
   * in-flight cap no task is ever dispatched beyond the two caps together.
   */
  lemma AttemptsCountDispatches(config: Config, now: int, events: seq<Event>)
    requires IsRun(Initial(config, now), events)
    ensures var s := Final(Initial(config, now), events);
      && (forall id :: id in s.tasks ==>
            && id in s.dispatched && id in s.parked
            && s.tasks[id].attempts + s.tasks[id].inflightRetries + s.parked[id] == s.dispatched[id]
            && 0 <= s.tasks[id].attempts <= config.maxAttempts)
      && (config.maxInflightRetries > 0 ==>
            forall id :: id in s.dispatched ==>
              id in s.parked && s.dispatched[id] <= s.parked[id] + config.maxAttempts + config.maxInflightRetries - 1)
  {
    RunKeeps(Initial(config, now), events);
    var s := Final(Initial(config, now), events);
    forall id | id in s.tasks
      ensures id in s.dispatched && id in s.parked
      ensures s.tasks[id].attempts + s.tasks[id].inflightRetries + s.parked[id] == s.dispatched[id]
      ensures 0 <= s.tasks[id].attempts <= config.maxAttempts
    {
      assert CountsOk(s, id);
    }
  }

  /** For every interleaving: two runs of one deployment that are under way are one run. */
  lemma RunsNeverOverlap(config: Config, now: int, events: seq<Event>, who: string, id: TaskId, other: string,
                         id2: TaskId)
    requires IsRun(Initial(config, now), events)
    requires SameDeployment(Final(Initial(config, now), events), who, id, other, id2)
    ensures who == other && id == id2
  {
    RunKeeps(Initial(config, now), events);
    OneUnderWay(Final(Initial(config, now), events), who, id, other, id2);
  }

  lemma FitsBatch(s: State, who: string)
    requires ConsumersOk(s.consumers, s.config.batchSize) && who in s.consumers
    ensures |s.consumers[who].runs| <= s.config.batchSize
  {
    assert ConsumerOk(s.consumers[who], s.config.batchSize);
  }

  /** For every interleaving: a consumer never has more runs in flight than its batch. */
  lemma BatchIsNeverExceeded(config: Config, now: int, events: seq<Event>, who: string)
    requires IsRun(Initial(config, now), events) && who in Final(Initial(config, now), events).consumers
    ensures |Final(Initial(config, now), events).consumers[who].runs| <= config.batchSize
  {
    RunKeeps(Initial(config, now), events);
    FitsBatch(Final(Initial(config, now), events), who);
  }

  /** For every interleaving, no task is stranded: once its lease and its due time are past, it can be claimed. */
  lemma EveryTaskComesBack(config: Config, now: int, events: seq<Event>, id: TaskId)
    requires IsRun(Initial(config, now), events) && id in Final(Initial(config, now), events).tasks
    ensures var task := Final(Initial(config, now), events).tasks[id];
      && (task.status == Some(PROCESSING) <==> task.claimedBy.Some? && task.lease.Some?)
      && forall later :: FreeFrom(task) <= later ==> Claimable(task, later)
  {
    RunKeeps(Initial(config, now), events);
    var task := Final(Initial(config, now), events).tasks[id];
    forall later | FreeFrom(task) <= later ensures Claimable(task, later) { NoneStranded(task, later); }
  }

  /** The lock step in the lock table's own terms. */
  lemma LockStepIs(s: State, who: string, id: TaskId)
    requires ItemAt(s, who, id, Survivor)
    ensures var deployment := s.consumers[who].items[id].deployment;
      && (Enabled(s, TakeLock(who, id)) <==> deployment !in s.locks || s.locks[deployment].expiresAt < s.now)
      && (Enabled(s, Contend(who, id)) <==> deployment in s.locks && s.now <= s.locks[deployment].expiresAt)
  {
  }

  lemma TakeLockIs(s: State, who: string, id: TaskId)
    requires Enabled(s, TakeLock(who, id))
    ensures var t, deployment := Next(s, TakeLock(who, id)), s.consumers[who].items[id].deployment;
      t.locks == s.locks[deployment := Lock(who, s.now + s.config.leaseMs)]
  {
  }

  /**
   * No deployment is locked for good, over every interleaving: whatever lock is
   * stored, and whoever took it, a consumer at the lock step of that deployment
   * takes it at any clock past its expiry, and at no other.
   */
  lemma EveryLockComesBack(config: Config, now: int, events: seq<Event>, who: string, id: TaskId, later: int)
    requires IsRun(Initial(config, now), events) && ItemAt(Final(Initial(config, now), events), who, id, Survivor)
    ensures var s := Final(Initial(config, now), events).(now := later);
      var deployment := s.consumers[who].items[id].deployment;
      && (Enabled(s, TakeLock(who, id)) <==> deployment !in s.locks || s.locks[deployment].expiresAt < later)
      && (Enabled(s, Contend(who, id)) <==> deployment in s.locks && later <= s.locks[deployment].expiresAt)
      && (Enabled(s, TakeLock(who, id)) ==>
            Next(s, TakeLock(who, id)).locks == s.locks[deployment := Lock(who, later + s.config.leaseMs)])
  {
    var s := Final(Initial(config, now), events).(now := later);
    LockStepIs(s, who, id);
    if Enabled(s, TakeLock(who, id)) { TakeLockIs(s, who, id); }
  }

  lemma RunHead(s: State, e: Event, rest: seq<Event>)
    requires Enabled(s, e) && IsRun(Next(s, e), rest)
    ensures IsRun(s, [e] + rest) && Final(s, [e] + rest) == Final(Next(s, e), rest)
  {
    assert ([e] + rest)[1..] == rest;
  }

  /** Of a state, what one consumer sees of one task's way to a run. */
  ghost predicate Sees(s: State, config: Config, now: int, tasks: map<TaskId, Task>, locks: map<string, Lock>, who: string, c: Consumer) {
    && s.config == config && s.now == now && s.tasks == tasks && s.locks == locks && who in s.consumers && s.consumers[who] == c
  }

  /** From `s` the step leads to `t`, whatever run follows. */
  ghost predicate LeadsTo(s: State, e: Event, t: State) {
    forall rest :: IsRun(t, rest) ==> IsRun(s, [e] + rest) && Final(s, [e] + rest) == Final(t, rest)
  }

  lemma NextLeads(s: State, e: Event)
    requires Enabled(s, e)
    ensures LeadsTo(s, e, Next(s, e))
  {
    forall rest | IsRun(Next(s, e), rest)
      ensures IsRun(s, [e] + rest) && Final(s, [e] + rest) == Final(Next(s, e), rest)
    {
      RunHead(s, e, rest);
    }
  }

  lemma OpenStep(s: State, who: string) returns (t: State)
    requires who in s.consumers && |s.consumers[who].runs| < s.config.batchSize
    requires !s.consumers[who].stopped && s.consumers[who].capacity.None? && s.consumers[who].items == map[]
    ensures LeadsTo(s, Open(who), t)
    ensures var c := s.consumers[who];
      Sees(t, s.config, s.now, s.tasks, s.locks, who, c.(capacity := Some(s.config.batchSize - |c.runs|)))
  {
    t := Next(s, Open(who));
    NextLeads(s, Open(who));
  }

  lemma FetchStep(s: State, who: string, id: TaskId) returns (t: State)
    requires who in s.consumers && s.consumers[who].capacity.Some? && s.consumers[who].capacity.value > 0
    requires s.consumers[who].items == map[]
    requires id in s.tasks && s.tasks[id].status == Some(PENDING) && s.tasks[id].dueAt <= s.now
    requires forall other :: other in s.tasks ==> s.now < s.tasks[other].dueAt || s.tasks[id].dueAt <= s.tasks[other].dueAt
    ensures LeadsTo(s, Fetch(who, id), t)
    ensures var c, task := s.consumers[who], s.tasks[id];
      var claimed := task.(status := Some(PROCESSING), claimedBy := Some(who), lease := Some(s.now + s.config.leaseMs));
      Sees(t, s.config, s.now, s.tasks[id := claimed], s.locks, who,
           c.(capacity := Some(c.capacity.value - 1),
              items := map[id := Item(Fetched, task.deployment, task.attempts, task.inflightRetries)]))
  {
    t := Next(s, Fetch(who, id));
    NextLeads(s, Fetch(who, id));
  }

  lemma SurviveStep(s: State, who: string, id: TaskId) returns (t: State)
    requires ItemAt(s, who, id, Fetched) && id !in s.consumers[who].runs
    requires var item := s.consumers[who].items[id];
      item.attempts < s.config.maxAttempts
      && (s.config.maxInflightRetries == 0 || item.inflightRetries < s.config.maxInflightRetries)
    ensures LeadsTo(s, Survive(who, id), t)
    ensures var c := s.consumers[who];
      Sees(t, s.config, s.now, s.tasks, s.locks, who, c.(items := c.items[id := c.items[id].(stage := Survivor)]))
  {
    t := Next(s, Survive(who, id));
    NextLeads(s, Survive(who, id));
  }

  lemma TakeLockStep(s: State, who: string, id: TaskId)
    requires ItemAt(s, who, id, Survivor)
    requires var deployment := s.consumers[who].items[id].deployment;
      deployment in s.locks ==> s.locks[deployment].expiresAt < s.now
    ensures Enabled(s, TakeLock(who, id))
    ensures var c := s.consumers[who];
      Sees(Next(s, TakeLock(who, id)), s.config, s.now, s.tasks,
           s.locks[c.items[id].deployment := Lock(who, s.now + s.config.leaseMs)], who,
           c.(items := c.items[id := c.items[id].(stage := Locked)]))
  {
  }

  lemma CountStep(s: State, who: string, id: TaskId)
    requires ItemAt(s, who, id, Locked) && id in s.tasks && s.tasks[id].claimedBy == Some(who)
    ensures Enabled(s, Count(who, id))
    ensures var c := s.consumers[who];
      Sees(Next(s, Count(who, id)), s.config, s.now, s.tasks[id := s.tasks[id].(attempts := s.tasks[id].attempts + 1)], s.locks, who,
           c.(items := c.items[id := c.items[id].(stage := Counted)]))
  {
  }

  lemma DispatchStep(s: State, who: string, id: TaskId)
    requires ItemAt(s, who, id, Counted)
    ensures Enabled(s, Dispatch(who, id))
    ensures var c := s.consumers[who];
      Sees(Next(s, Dispatch(who, id)), s.config, s.now, s.tasks, s.locks, who,
           c.(items := c.items - {id}, runs := c.runs[id := Run(c.items[id].deployment, Working)]))
  {
  }

  /** A task no one holds, due, under both caps, in terms of the document alone. */
  predicate CanRun(task: Task, config: Config, now: int) {
    && task.status == Some(PENDING) && task.dueAt <= now && task.attempts < config.maxAttempts
    && (config.maxInflightRetries == 0 || task.inflightRetries < config.maxInflightRetries)
  }

  function LockPath(who: string, id: TaskId): seq<Event> {
    [TakeLock(who, id)] + ([Count(who, id)] + ([Dispatch(who, id)] + []))
  }

  function Path(who: string, id: TaskId): seq<Event> { [Open(who)] + ([Fetch(who, id)] + ([Survive(who, id)] + LockPath(who, id))) }

  /** The consumer runs the task, counted once more, under the deployment's lock. */
  ghost predicate Runs(s: State, who: string, id: TaskId, deployment: string, attempts: int, expiresAt: int) {
    && RunAt(s, who, id, Working) && deployment in s.locks && s.locks[deployment] == Lock(who, expiresAt)
    && id in s.tasks && s.tasks[id].attempts == attempts && s.tasks[id].claimedBy == Some(who)
  }

  lemma SurvivorCanRun(s: State, who: string, id: TaskId)
    requires ItemAt(s, who, id, Survivor) && id in s.tasks && s.tasks[id].claimedBy == Some(who)
    requires var deployment := s.consumers[who].items[id].deployment;
      deployment in s.locks ==> s.locks[deployment].expiresAt < s.now
    ensures IsRun(s, LockPath(who, id))
    ensures Runs(Final(s, LockPath(who, id)), who, id, s.consumers[who].items[id].deployment, s.tasks[id].attempts + 1,
                 s.now + s.config.leaseMs)
  {
    TakeLockStep(s, who, id);
    var s1 := Next(s, TakeLock(who, id));
    CountStep(s1, who, id);
    var s2 := Next(s1, Count(who, id));
    DispatchStep(s2, who, id);
    RunHead(s2, Dispatch(who, id), []);
    RunHead(s1, Count(who, id), [Dispatch(who, id)] + []);
    RunHead(s, TakeLock(who, id), [Count(who, id)] + ([Dispatch(who, id)] + []));
  }

  lemma FetchedCanRun(s: State, who: string, id: TaskId)
    requires ItemAt(s, who, id, Fetched) && id !in s.consumers[who].runs && id in s.tasks && s.tasks[id].claimedBy == Some(who)
    requires var item := s.consumers[who].items[id];
      && item.attempts < s.config.maxAttempts
      && (s.config.maxInflightRetries == 0 || item.inflightRetries < s.config.maxInflightRetries)
      && (item.deployment in s.locks ==> s.locks[item.deployment].expiresAt < s.now)
    ensures IsRun(s, [Survive(who, id)] + LockPath(who, id))
    ensures Runs(Final(s, [Survive(who, id)] + LockPath(who, id)), who, id, s.consumers[who].items[id].deployment,
                 s.tasks[id].attempts + 1, s.now + s.config.leaseMs)
  {
    var s1 := SurviveStep(s, who, id);
    SurvivorCanRun(s1, who, id);
  }

  /**
   * And no task is refused for good: a consumer that is up, between cycles and
   * below its batch can take the earliest-due task it may run, on a deployment
   * without a live lock, all the way to a run of its own under the lock.
   */
  lemma EarliestTaskCanRun(s: State, who: string, id: TaskId)
    requires who in s.consumers && !s.consumers[who].stopped && s.consumers[who].capacity.None? && s.consumers[who].items == map[]
    requires |s.consumers[who].runs| < s.config.batchSize && id !in s.consumers[who].runs
    requires id in s.tasks && CanRun(s.tasks[id], s.config, s.now)
    requires forall other :: other in s.tasks ==> s.now < s.tasks[other].dueAt || s.tasks[id].dueAt <= s.tasks[other].dueAt
    requires s.tasks[id].deployment in s.locks ==> s.locks[s.tasks[id].deployment].expiresAt < s.now
    ensures IsRun(s, Path(who, id))
    ensures Runs(Final(s, Path(who, id)), who, id, s.tasks[id].deployment, s.tasks[id].attempts + 1, s.now + s.config.leaseMs)
  {
    var s1 := OpenStep(s, who);
    var s2 := FetchStep(s1, who, id);
    FetchedCanRun(s2, who, id);
  }

  /** A consumer that crashed keeps nobody's clock back. */
  lemma RestartStep(s: State, holder: string, who: string, later: int)
    requires who != holder && who in s.consumers && s.now <= later
    requires forall other, task, deployment ::
               other in s.consumers && other != holder && HoldsLock(s.consumers[other], task, deployment) && deployment in s.locks ==>
                 later <= s.locks[deployment].expiresAt
    ensures Enabled(s, Restart(holder)) && Enabled(Next(s, Restart(holder)), Tick(later))
    ensures Sees(Next(Next(s, Restart(holder)), Tick(later)), s.config, later, s.tasks, s.locks, who, s.consumers[who])
  {
    var s1 := Next(s, Restart(holder));
    assert s1.consumers == s.consumers[holder := Consumer(false, None, map[], map[])] && s1.locks == s.locks;
    forall other, task, deployment |
      other in s1.consumers && HoldsLock(s1.consumers[other], task, deployment) && deployment in s1.locks
      ensures later <= s1.locks[deployment].expiresAt
    {
      assert other != holder;
      assert s1.consumers[other] == s.consumers[other];
    }
  }

  /** So its lock runs out, and another consumer takes it. */
  lemma CrashedLockIsTaken(s: State, holder: string, who: string, id: TaskId, later: int)
    requires who != holder && ItemAt(s, who, id, Survivor) && s.consumers[who].items[id].deployment in s.locks
    requires s.locks[s.consumers[who].items[id].deployment].expiresAt < later && s.now <= later
    requires forall other, task, deployment ::
               other in s.consumers && other != holder && HoldsLock(s.consumers[other], task, deployment) && deployment in s.locks ==>
                 later <= s.locks[deployment].expiresAt
    ensures var events := [Restart(holder)] + ([Tick(later)] + ([TakeLock(who, id)] + []));
      IsRun(s, events) && ItemAt(Final(s, events), who, id, Locked)
      && Final(s, events).locks == s.locks[s.consumers[who].items[id].deployment := Lock(who, later + s.config.leaseMs)]
  {
    RestartStep(s, holder, who, later);
    var s1 := Next(s, Restart(holder));
    var s2 := Next(s1, Tick(later));
    TakeLockStep(s2, who, id);
    RunHead(s2, TakeLock(who, id), []);
    RunHead(s1, Tick(later), [TakeLock(who, id)] + []);
    RunHead(s, Restart(holder), [Tick(later)] + ([TakeLock(who, id)] + []));
  }

  /**
   * A task under one consumer's claim is changed by another consumer only if the
   * lease ran out and it is claimed anew, or by the two writes that match on the
   * id alone: the hand-back on lock contention, and the over-cap delete.
   */
  lemma OnlyTheClaimerMoves(s: State, e: Event, id: TaskId, claimer: string)
    requires Enabled(s, e) && IsTaskEvent(e) && e.who != claimer
    requires Owns(s.tasks, id, claimer) && WellFormed(s.tasks[id])
    ensures var t := Next(s, e);
      || (id in t.tasks && t.tasks[id] == s.tasks[id])
      || (e.id == id && (e.Contend? || e.Abandon? || (e.Fetch? && s.tasks[id].lease.value < s.now)))
  {
    assert !Owns(s.tasks, id, e.who);
  }

  /** The steps that may move a task under someone's claim: the claimer's own, the id-only writes, other writers. */
  predicate MayMove(e: Event, id: TaskId, claimer: string) {
    || ((e.Schedule? || e.Touch? || e.Remove? || e.Contend? || e.Abandon?) && e.id == id)
    || (IsTaskEvent(e) && e.who == claimer && e.id == id)
  }

  lemma {:induction false} ClockGrows(s: State, events: seq<Event>)
    requires IsRun(s, events)
    ensures s.now <= Final(s, events).now
    decreases |events|
  {
    if events != [] { ClockGrows(Next(s, events[0]), events[1..]); }
  }

  /**
   * After a takeover nothing the old claimer still has on its way changes the
   * task: whatever its runs and cycle go on to write, and whoever else fetches, over
   * any run of steps that holds none of the above and ends within the lease, the
   * task is as the new claimer left it.
   */
  lemma {:induction false} TakeoverHolds(s: State, events: seq<Event>, id: TaskId, claimer: string)
    requires IsRun(s, events) && Owns(s.tasks, id, claimer) && WellFormed(s.tasks[id])
    requires forall e :: e in events ==> !MayMove(e, id, claimer)
    requires Final(s, events).now <= s.tasks[id].lease.value || forall e :: e in events && e.Fetch? ==> e.id != id
    ensures id in Final(s, events).tasks && Final(s, events).tasks[id] == s.tasks[id]
    decreases |events|
  {
    if events != [] {
      var e := events[0];
      assert e in events;
      ClockGrows(s, events);
      StepLeaves(s, e, id, claimer);
      TakeoverHolds(Next(s, e), events[1..], id, claimer);
    }
  }

  lemma StepLeaves(s: State, e: Event, id: TaskId, claimer: string)
    requires Enabled(s, e) && Owns(s.tasks, id, claimer) && WellFormed(s.tasks[id]) && !MayMove(e, id, claimer)
    requires e.Fetch? && e.id == id ==> s.now <= s.tasks[id].lease.value
    ensures id in TasksNext(s, e) && TasksNext(s, e)[id] == s.tasks[id]
  {
    if IsTaskEvent(e) && e.who != claimer { OnlyTheClaimerMoves(s, e, id, claimer); }
  }
}
