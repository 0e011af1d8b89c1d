/** Whether a task's intent still holds against its deployment. */
module Wanted {
  import opened Prelude

  datatype DeploymentStatus = DRAFT | ERROR | STARTING | RUNNING | STOPPING | STOPPED | INSUFFICIENT_FUNDS | ARCHIVED

  /** `run` counts the starts; it is absent until the first one, and on documents older than the count. */
  datatype Deployment = Deployment(status: DeploymentStatus, run: Option<nat>, activeRevision: nat)

  datatype TaskType = LIST | EXTEND | STOP

  /** What a task was scheduled for: its revision and run are frozen then, if it has them. */
  datatype Intent = Intent(kind: TaskType, activeRevision: Option<nat>, run: Option<nat>)

  /** The statuses in which a deployment is meant to have jobs. */
  predicate Running(status: DeploymentStatus) { status in {STARTING, RUNNING, INSUFFICIENT_FUNDS} }

  predicate IsTaskWanted(task: Intent, deployment: Deployment, jobActive: bool) {
    var running := Running(deployment.status);
    var current := task.activeRevision.None? || task.activeRevision.value == deployment.activeRevision;
    var sameRun := task.run.None? || deployment.run.None? || task.run == deployment.run;
    match task.kind
    case LIST => running && current && sameRun
    case EXTEND => running && jobActive
    case STOP => current
  }
}

/** Every writer of a deployment's status, over whole histories. */
module Lifecycle {
  import opened Prelude
  import opened Wanted

  /**
   * One write. The three routes write whatever is stored, having judged the
   * status they loaded (`seen`); every other writer matches on the status.
   */
  datatype Write =
    | StartRoute(seen: DeploymentStatus)
    | CreateStarted
    | StopRoute(seen: DeploymentStatus)
    | ArchiveRoute(seen: DeploymentStatus)
    | SetRevision(revision: nat)
    | FirstTask
    | FundsShort
    | FundsBack
    | StopSettled
    | LastJobSettled
    | TaskFailed
    | BanOwner
    | FailSafe
    | IdleSweep

  /** A route refuses the statuses it cannot act on; a deployment is started at its creation only as a draft. */
  predicate Enabled(d: Deployment, w: Write) {
    match w
    case StartRoute(seen) => seen in {DRAFT, STOPPED, ERROR, INSUFFICIENT_FUNDS}
    case CreateStarted => d.status == DRAFT
    case StopRoute(seen) => seen in {RUNNING, ERROR, INSUFFICIENT_FUNDS}
    case ArchiveRoute(seen) => seen == STOPPED
    case _ => true
  }

  function StartUpdate(d: Deployment): Deployment {
    d.(status := STARTING, run := Some(if d.run.Some? then d.run.value + 1 else 1))
  }

  function Fenced(d: Deployment, from: set<DeploymentStatus>, status: DeploymentStatus): Deployment {
    if d.status in from then d.(status := status) else d
  }

  function Next(d: Deployment, w: Write): Deployment {
    match w
    case StartRoute(_) => StartUpdate(d)
    case CreateStarted => StartUpdate(d)
    case StopRoute(_) => d.(status := STOPPING)
    case ArchiveRoute(_) => d.(status := ARCHIVED)
    case SetRevision(revision) => d.(activeRevision := revision)
    case FirstTask => Fenced(d, {STARTING}, RUNNING)
    case FundsShort => Fenced(d, {RUNNING}, INSUFFICIENT_FUNDS)
    case FundsBack => Fenced(d, {INSUFFICIENT_FUNDS}, RUNNING)
    case StopSettled => Fenced(d, {STOPPING}, STOPPED)
    case LastJobSettled => Fenced(d, {DRAFT, STARTING, RUNNING, STOPPING, STOPPED}, STOPPED)
    case TaskFailed => Fenced(d, {DRAFT, ERROR, STARTING, RUNNING, STOPPING, STOPPED, INSUFFICIENT_FUNDS}, ERROR)
    case BanOwner => d.(status := ARCHIVED)
    case FailSafe => Fenced(d, {RUNNING}, STOPPING)
    case IdleSweep => Fenced(d, {RUNNING, INSUFFICIENT_FUNDS}, STOPPED)
  }

  predicate IsHistory(d: Deployment, writes: seq<Write>)
    decreases |writes|
  {
    writes != [] ==> Enabled(d, writes[0]) && IsHistory(Next(d, writes[0]), writes[1..])
  }

  function After(d: Deployment, writes: seq<Write>): Deployment
    decreases |writes|
  {
    if writes == [] then d else After(Next(d, writes[0]), writes[1..])
  }

  function Starts(writes: seq<Write>): nat
    decreases |writes|
  {
    if writes == [] then 0
    else Starts(writes[1..]) + (if writes[0].StartRoute? || writes[0].CreateStarted? then 1 else 0)
  }

  /** At some point of the history the deployment was not meant to have jobs. */
  predicate Left(d: Deployment, writes: seq<Write>)
    decreases |writes|
  {
    !Running(d.status) || (writes != [] && Left(Next(d, writes[0]), writes[1..]))
  }

  /** The run counts the starts, whatever else is written. */
  lemma {:induction false} RunCountsStarts(d: Deployment, writes: seq<Write>)
    ensures var after := After(d, writes);
      && (Starts(writes) > 0 ==> after.run == Some((if d.run.Some? then d.run.value else 0) + Starts(writes)))
      && (Starts(writes) == 0 ==> after.run == d.run)
    decreases |writes|
  {
    if writes != [] { RunCountsStarts(Next(d, writes[0]), writes[1..]); }
  }

  /** A deployment not running gets back to running only by a start. */
  lemma {:induction false} ReentryNeedsStart(d: Deployment, writes: seq<Write>)
    requires IsHistory(d, writes) && Left(d, writes) && Running(After(d, writes).status)
    ensures Starts(writes) > 0
    decreases |writes|
  {
    if writes != [] {
      var next := Next(d, writes[0]);
      if Left(next, writes[1..]) { ReentryNeedsStart(next, writes[1..]); }
    }
  }

  /**
   * A deployment that left the running statuses is in them again only under a
   * larger run; so a LIST stamped with the earlier run is never wanted again.
   */
  lemma StampedListNeverComesBack(d: Deployment, writes: seq<Write>, task: Intent)
    requires IsHistory(d, writes) && Left(d, writes)
    requires task.kind == LIST && task.run.Some? && task.run == d.run
    ensures !IsTaskWanted(task, After(d, writes), true)
    ensures Running(After(d, writes).status) ==> After(d, writes).run.Some? && After(d, writes).run.value > d.run.value
  {
    RunCountsStarts(d, writes);
    if Running(After(d, writes).status) { ReentryNeedsStart(d, writes); }
  }

  /**
   * And it is never dropped for its run while there was no start: stamped with
   * the deployment's run, a LIST is wanted later exactly while the deployment
   * runs, on the LIST's revision, and was not started since.
   */
  lemma StampedListWantedIff(d: Deployment, writes: seq<Write>, task: Intent)
    requires IsHistory(d, writes) && task.kind == LIST && task.run.Some? && task.run == d.run
    requires task.activeRevision.Some?
    ensures var after := After(d, writes);
      IsTaskWanted(task, after, true)
      <==> Running(after.status) && after.activeRevision == task.activeRevision.value && Starts(writes) == 0
  {
    RunCountsStarts(d, writes);
  }

  /**
   * The stamp is what makes it so: whatever the history, a LIST without one is
   * wanted whenever the deployment runs on its revision, a stop and restart
   * notwithstanding.
   */
  lemma UnstampedListComesBack(d: Deployment, writes: seq<Write>, task: Intent)
    requires task.kind == LIST && task.run.None?
    ensures IsTaskWanted(task, After(d, writes), true)
       <==> Running(After(d, writes).status)
            && (task.activeRevision.None? || task.activeRevision.value == After(d, writes).activeRevision)
    ensures d.status == RUNNING && task.activeRevision == Some(d.activeRevision) ==>
              var history := [StopRoute(RUNNING), StopSettled, StartRoute(STOPPED)];
              IsHistory(d, history) && Left(d, history) && IsTaskWanted(task, After(d, history), true)
  {
    if d.status == RUNNING {
      var history := [StopRoute(RUNNING), StopSettled, StartRoute(STOPPED)];
      assert history[1..] == [StopSettled, StartRoute(STOPPED)] && history[1..][1..] == [StartRoute(STOPPED)];
      assert history[1..][1..][1..] == [];
      assert Left(Next(d, history[0]), history[1..]);
    }
  }

  /** At the end of the history the revision is the last one set, if any was. */
  function RevisionAfter(revision: nat, writes: seq<Write>): nat
    decreases |writes|
  {
    if writes == [] then revision
    else RevisionAfter(if writes[0].SetRevision? then writes[0].revision else revision, writes[1..])
  }

  lemma {:induction false} RevisionIsLastSet(d: Deployment, writes: seq<Write>)
    ensures After(d, writes).activeRevision == RevisionAfter(d.activeRevision, writes)
    decreases |writes|
  {
    if writes != [] { RevisionIsLastSet(Next(d, writes[0]), writes[1..]); }
  }

  /**
   * A STOP outlives everything but a newer swap: over any history, one without a
   * revision is always wanted, and a revision's is exactly while its revision is
   * still the last one set, whatever the status, the run and the job became.
   */
  lemma StopWantedIff(d: Deployment, writes: seq<Write>, task: Intent, jobActive: bool)
    requires task.kind == STOP
    ensures task.activeRevision.None? ==> IsTaskWanted(task, After(d, writes), jobActive)
    ensures task.activeRevision.Some? ==>
              (IsTaskWanted(task, After(d, writes), jobActive)
               <==> RevisionAfter(d.activeRevision, writes) == task.activeRevision.value)
  {
    RevisionIsLastSet(d, writes);
  }

  /**
   * An EXTEND is its job's, not a run's or a revision's: over any history it is
   * wanted exactly while the job is active and the deployment in a running status,
   * starts and swaps in between notwithstanding.
   */
  lemma ExtendWantedIff(d: Deployment, writes: seq<Write>, task: Intent, jobActive: bool)
    requires task.kind == EXTEND
    ensures IsTaskWanted(task, After(d, writes), jobActive)
       <==> jobActive && After(d, writes).status in {STARTING, RUNNING, INSUFFICIENT_FUNDS}
    ensures d.status in {ERROR, INSUFFICIENT_FUNDS} && jobActive ==>
              IsTaskWanted(task, After(d, [StartRoute(d.status)]), jobActive)
  {
    assert [StartRoute(d.status)][1..] == [];
    var started := Next(d, StartRoute(d.status));
    assert After(d, [StartRoute(d.status)]) == started && started.status == STARTING && Running(started.status);
  }

  lemma AfterTwo(d: Deployment, v: Write, w: Write)
    ensures After(d, [v, w]) == Next(Next(d, v), w)
  {
    assert [v, w][1..] == [w] && [w][1..] == [];
    assert After(Next(d, v), [w]) == After(Next(Next(d, v), w), []);
  }

  lemma TwoAreHistory(d: Deployment, v: Write, w: Write)
    requires Enabled(d, v) && Enabled(Next(d, v), w)
    ensures IsHistory(d, [v, w])
  {
    assert [v, w][1..] == [w] && [w][1..] == [];
  }

  /** The ordinary ways round: started to running, stopped to stopped, short of funds and back. */
  lemma OrdinaryPaths(d: Deployment, seen: DeploymentStatus)
    ensures seen in {DRAFT, STOPPED, ERROR, INSUFFICIENT_FUNDS} ==>
              IsHistory(d, [StartRoute(seen), FirstTask]) && After(d, [StartRoute(seen), FirstTask]).status == RUNNING
    ensures seen in {RUNNING, ERROR, INSUFFICIENT_FUNDS} ==>
              IsHistory(d, [StopRoute(seen), StopSettled]) && After(d, [StopRoute(seen), StopSettled]) == d.(status := STOPPED)
    ensures d.status == RUNNING ==>
              After(d, [FundsShort, FundsBack]) == d && After(d, [FailSafe, StopSettled]) == d.(status := STOPPED)
  {
    AfterTwo(d, StartRoute(seen), FirstTask);
    AfterTwo(d, StopRoute(seen), StopSettled);
    AfterTwo(d, FundsShort, FundsBack);
    AfterTwo(d, FailSafe, StopSettled);
    if seen in {DRAFT, STOPPED, ERROR, INSUFFICIENT_FUNDS} { TwoAreHistory(d, StartRoute(seen), FirstTask); }
    if seen in {RUNNING, ERROR, INSUFFICIENT_FUNDS} { TwoAreHistory(d, StopRoute(seen), StopSettled); }
  }

  /** The status a write fenced on others may move a deployment from, and to. */
  lemma FencesHold(d: Deployment, w: Write)
    requires !w.StartRoute? && !w.CreateStarted? && !w.StopRoute? && !w.ArchiveRoute? && !w.SetRevision?
    ensures Next(d, w).run == d.run && Next(d, w).activeRevision == d.activeRevision
    ensures Next(d, w).status != d.status ==>
              match Next(d, w).status
              case RUNNING => (w == FirstTask && d.status == STARTING) || (w == FundsBack && d.status == INSUFFICIENT_FUNDS)
              case INSUFFICIENT_FUNDS => w == FundsShort && d.status == RUNNING
              case STOPPING => w == FailSafe && d.status == RUNNING
              case STOPPED =>
                || (w == StopSettled && d.status == STOPPING) || (w == IdleSweep && d.status in {RUNNING, INSUFFICIENT_FUNDS})
                || (w == LastJobSettled && d.status !in {ERROR, INSUFFICIENT_FUNDS, ARCHIVED})
              case ERROR => w == TaskFailed && d.status != ARCHIVED
              case ARCHIVED => w == BanOwner
              case _ => false
    ensures w == BanOwner ==> Next(d, w).status == ARCHIVED
    ensures w == TaskFailed && d.status != ARCHIVED ==> Next(d, w).status == ERROR
    ensures w == FundsShort && d.status == RUNNING ==> Next(d, w).status == INSUFFICIENT_FUNDS
    ensures w == IdleSweep && d.status in {RUNNING, INSUFFICIENT_FUNDS} ==> Next(d, w).status == STOPPED
  {
    assert d.status.DRAFT? || d.status.ERROR? || d.status.STARTING? || d.status.RUNNING? || d.status.STOPPING?
           || d.status.STOPPED? || d.status.INSUFFICIENT_FUNDS? || d.status.ARCHIVED?;
  }

  predicate IsRouteStartOrStop(w: Write) { w.StartRoute? || w.StopRoute? }

  /** One write leaves ARCHIVED exactly when it is a start or stop route that judged an older status. */
  lemma ArchivedIsLeftIff(d: Deployment, w: Write)
    requires d.status == ARCHIVED && Enabled(d, w)
    ensures Next(d, w).status != ARCHIVED <==> IsRouteStartOrStop(w)
    ensures IsRouteStartOrStop(w) ==> w.seen != d.status
  {
  }

  /** So over any history only those two routes can move a deployment out of ARCHIVED: no worker-side writer does. */
  lemma {:induction false} ArchivedIsTerminal(d: Deployment, writes: seq<Write>)
    requires d.status == ARCHIVED && IsHistory(d, writes)
    requires forall w :: w in writes ==> !IsRouteStartOrStop(w)
    ensures After(d, writes).status == ARCHIVED
    decreases |writes|
  {
    if writes != [] {
      ArchivedIsLeftIff(d, writes[0]);
      assert writes[0] in writes;
      ArchivedIsTerminal(Next(d, writes[0]), writes[1..]);
    }
  }
}

/** Scheduling: what a new task freezes, and when one already queued stands in for it. */
module Scheduling {
  import opened Prelude
  import opened Wanted
  import opened Lifecycle

  type TaskId = nat

  datatype Options = Options(
    activeRevision: Option<nat>, limit: Option<nat>, job: Option<string>, extendSeconds: Option<nat>,
    reason: Option<string>, idempotent: bool, handoffOf: Option<TaskId>)

  /** A queued task; `pending` says no consumer holds it. */
  datatype Queued = Queued(
    intent: Intent, dueAt: int, reason: Option<string>, limit: Option<nat>, job: Option<string>,
    extendSeconds: Option<nat>, handoffOf: Option<TaskId>, pending: bool)

  /** The stored document an idempotent schedule counts as the same intent. */
  predicate SameIntent(queued: Queued, doc: Queued) {
    && queued.pending && queued.intent == doc.intent && queued.reason == doc.reason && queued.job == doc.job
    && queued.limit == doc.limit && queued.extendSeconds.None?
  }

  predicate StandsIn(queued: Queued, doc: Queued) {
    if doc.handoffOf.Some? then queued.handoffOf == doc.handoffOf else SameIntent(queued, doc)
  }

  function NewTask(kind: TaskType, deployment: Deployment, dueAt: int, options: Options): Queued {
    var revision := if options.activeRevision.None? && kind == LIST then Some(deployment.activeRevision) else options.activeRevision;
    var run := if kind == LIST then deployment.run else None;
    Queued(Intent(kind, revision, run), dueAt, options.reason, options.limit, options.job,
           options.extendSeconds, options.handoffOf, true)
  }

  ghost predicate OneChildEach(tasks: seq<Queued>) {
    forall i, j :: 0 <= i < j < |tasks| && tasks[i].handoffOf.Some? ==> tasks[i].handoffOf != tasks[j].handoffOf
  }

  function Without(tasks: seq<Queued>, job: string): seq<Queued> {
    if tasks == [] then []
    else
      var last := tasks[|tasks| - 1];
      Without(tasks[..|tasks| - 1], job) + (if last.job == Some(job) && last.intent.kind != LIST then [] else [last])
  }

  lemma {:induction false} WithoutIff(tasks: seq<Queued>, job: string, task: Queued)
    ensures task in Without(tasks, job) <==> task in tasks && !(task.job == Some(job) && task.intent.kind != LIST)
  {
    if tasks != [] {
      var front, last := tasks[..|tasks| - 1], tasks[|tasks| - 1];
      WithoutIff(front, job, task);
      assert tasks == front + [last];
    }
  }

  /** One deployment and its queue. */
  class Schedule {
    var deployment: Deployment
    var tasks: seq<Queued>

    constructor (deployment: Deployment)
      ensures this.deployment == deployment && tasks == []
    {
      this.deployment, tasks := deployment, [];
    }

    /**
     * Queue a task. A LIST takes the revision and the run stored now. A hand-off
     * is created once per source, an idempotent task once per pending intent. The
     * first task of a deployment that is still STARTING sets it RUNNING.
     */
    method ScheduleTask(kind: TaskType, status: DeploymentStatus, dueAt: int, options: Options) returns (created: bool)
      modifies this
      ensures tasks == if created then old(tasks) + [NewTask(kind, old(deployment), dueAt, options)] else old(tasks)
      ensures !created <==> (options.idempotent || options.handoffOf.Some?)
                            && exists k :: 0 <= k < |old(tasks)| && StandsIn(old(tasks)[k], NewTask(kind, old(deployment), dueAt, options))
      ensures created ==>
                && tasks[..|old(tasks)|] == old(tasks) && |tasks| == |old(tasks)| + 1
                && var task := tasks[|old(tasks)|];
                   && task.intent.kind == kind && task.dueAt == dueAt && task.pending
                   && task.limit == options.limit && task.job == options.job && task.reason == options.reason
                   && task.extendSeconds == options.extendSeconds && task.handoffOf == options.handoffOf
                   && task.intent.run == (if kind == LIST then old(deployment).run else None)
                   && task.intent.activeRevision == (if kind == LIST && options.activeRevision.None?
                                                     then Some(old(deployment).activeRevision) else options.activeRevision)
      ensures !created ==>
                exists queued :: queued in old(tasks)
                  && if options.handoffOf.Some? then queued.handoffOf == options.handoffOf
                     else options.idempotent && queued.pending && queued.intent.kind == kind && queued.limit == options.limit
                          && queued.job == options.job && queued.reason == options.reason && queued.extendSeconds.None?
      ensures created && options.handoffOf.Some? ==> forall queued :: queued in old(tasks) ==> queued.handoffOf != options.handoffOf
      ensures created && options.idempotent && options.handoffOf.None? ==>
                forall queued :: queued in old(tasks) ==>
                  || !queued.pending || queued.intent != tasks[|old(tasks)|].intent || queued.limit != options.limit
                  || queued.job != options.job || queued.reason != options.reason || queued.extendSeconds.Some?
      ensures deployment == if created && status == STARTING && old(deployment).status == STARTING
                            then old(deployment).(status := RUNNING) else old(deployment)
      ensures OneChildEach(old(tasks)) ==> OneChildEach(tasks)
      ensures created && kind == LIST && options.activeRevision.None? && Running(old(deployment).status) ==>
                IsTaskWanted(tasks[|tasks| - 1].intent, deployment, true)
    {
      var doc := NewTask(kind, deployment, dueAt, options);
      created := true;
      if options.idempotent || options.handoffOf.Some? {
        for k := 0 to |tasks|
          invariant tasks == old(tasks) && deployment == old(deployment)
          invariant created <==> forall j :: 0 <= j < k ==> !StandsIn(tasks[j], doc)
        {
          if StandsIn(tasks[k], doc) { created := false; }
        }
      }
      if created { tasks := tasks + [doc]; }
      if created && status == STARTING && deployment.status == STARTING {
        deployment := deployment.(status := RUNNING);
      }
    }

    /**
     * A job settled, `activeJobs` others still active. Its own tasks go, a LIST
     * keyed on it excepted. The deployment is STOPPED once nothing is active, but
     * not a RUNNING one with a LIST on its way, and never out of a terminal or
     * funds status.
     */
    method JobSettled(job: string, simple: bool, activeJobs: nat)
      modifies this
      ensures forall task :: task in tasks <==>
                task in old(tasks) && !(task.job == Some(job) && task.intent.kind != LIST)
      ensures deployment ==
        if activeJobs == 0 && (simple || old(deployment).status == STOPPING)
           && old(deployment).status !in {ERROR, INSUFFICIENT_FUNDS, ARCHIVED}
           && !(old(deployment).status == RUNNING && exists task :: task in old(tasks) && task.intent.kind == LIST)
        then old(deployment).(status := STOPPED) else old(deployment)
    {
      ghost var before := tasks;
      forall task: Queued
        ensures task in Without(tasks, job) <==> task in tasks && !(task.job == Some(job) && task.intent.kind != LIST)
      {
        WithoutIff(tasks, job, task);
      }
      tasks := Without(tasks, job);
      if !simple && deployment.status != STOPPING { return; }
      if activeJobs == 0 {
        if deployment.status == RUNNING {
          assert forall task :: task in before && task.intent.kind == LIST ==> task in tasks;
          if exists task :: task in tasks && task.intent.kind == LIST { return; }
        }
        deployment := Next(deployment, LastJobSettled);
      }
    }
  }
}
