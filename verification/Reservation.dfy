/** A LIST task's one reservation request: recorded, sent, filled by an answer or by a webhook. */
module Reservations {
  import opened Prelude
  import opened Funds
  import opened Nodes
  import opened Queue

  const MAX_RESERVATION_COUNT := 50

  datatype ReserveOutcome =
    | Reserved(nodes: seq<string>)
    | Waiting
    | Handoff(backoff: bool)
    | TryAgain
    | Fatal

  /** Host-manager's answer, or the HTTP status of its error, if it answered at all. */
  datatype Response = Fulfilled(fill: Fill) | Queued | Closed | Failed(status: Option<int>)

  predicate IsLive(fill: Fill, now: int) { fill.expiresAt.Some? && fill.expiresAt.value > now }

  predicate InTerms(reserved: ReservedNode, market: Option<string>) { market.None? || reserved.market == market.value }

  function NodesOf(nodes: seq<ReservedNode>): seq<string> { seq(|nodes|, i requires 0 <= i < |nodes| => nodes[i].node) }

  function NodesInTerms(nodes: seq<ReservedNode>, market: Option<string>): seq<string> {
    if nodes == [] then []
    else
      var last := nodes[|nodes| - 1];
      NodesInTerms(nodes[..|nodes| - 1], market) + (if InTerms(last, market) then [last.node] else [])
  }

  function Usable(fill: Fill, used: seq<string>, market: Option<string>): seq<string> {
    Unused(NodesInTerms(fill.nodes, market), used)
  }

  function ReuseReservation(fill: Fill, used: seq<string>, market: Option<string>, count: nat, now: int): ReserveOutcome {
    var nodes := Usable(fill, used, market);
    if IsLive(fill, now) && |nodes| > 0 then Reserved(nodes[..Min(|nodes|, count)])
    else Handoff(forall reserved :: reserved in fill.nodes ==> InTerms(reserved, market))
  }

  lemma {:induction false} NodesInTermsIff(nodes: seq<ReservedNode>, market: Option<string>, node: string)
    ensures node in NodesInTerms(nodes, market)
       <==> exists reserved :: reserved in nodes && reserved.node == node && InTerms(reserved, market)
  {
    if nodes != [] {
      var front, last := nodes[..|nodes| - 1], nodes[|nodes| - 1];
      NodesInTermsIff(front, market, node);
      assert nodes == front + [last];
      if InTerms(last, market) && last.node == node { assert last in nodes; }
      if node in NodesInTerms(nodes, market) && !(InTerms(last, market) && last.node == node) {
        var reserved :| reserved in front && reserved.node == node && InTerms(reserved, market);
        assert reserved in nodes;
      }
    }
  }

  lemma {:induction false} NodesInTermsDistinct(nodes: seq<ReservedNode>, market: Option<string>)
    requires Distinct(NodesOf(nodes))
    ensures Distinct(NodesInTerms(nodes, market))
  {
    if nodes != [] {
      var front, last := nodes[..|nodes| - 1], nodes[|nodes| - 1];
      assert NodesOf(nodes) == NodesOf(front) + [last.node];
      DistinctPrefix(NodesOf(front), [last.node]);
      NodesInTermsDistinct(front, market);
      NodesInTermsIff(front, market, last.node);
      forall i | 0 <= i < |front| ensures front[i].node != last.node {
        assert NodesOf(nodes)[i] == front[i].node && NodesOf(nodes)[|front|] == last.node;
      }
    }
  }

  /** A node the fill holds in the deployment's market, on no record yet. */
  ghost predicate IsUsable(fill: Fill, used: seq<string>, market: Option<string>, node: string) {
    node !in used && exists reserved :: reserved in fill.nodes && reserved.node == node && (market.Some? ==> reserved.market == market.value)
  }

  lemma UsableIff(fill: Fill, used: seq<string>, market: Option<string>, node: string)
    ensures node in Usable(fill, used, market) <==> IsUsable(fill, used, market, node)
  {
    UnusedIff(NodesInTerms(fill.nodes, market), used, node);
    NodesInTermsIff(fill.nodes, market, node);
  }

  lemma UsableDistinct(fill: Fill, used: seq<string>, market: Option<string>, n: nat)
    requires Distinct(NodesOf(fill.nodes)) && n <= |Usable(fill, used, market)|
    ensures Distinct(Usable(fill, used, market)[..n])
  {
    NodesInTermsDistinct(fill.nodes, market);
    UnusedDistinct(NodesInTerms(fill.nodes, market), used);
  }

  /**
   * A fill is reused exactly while its hold is live and it has a usable node;
   * and then with distinct usable nodes, no more than asked for. It is handed
   * off at once, without backing off, only where the market changed.
   */
  lemma ReuseIsExact(fill: Fill, used: seq<string>, market: Option<string>, count: nat, now: int)
    requires Distinct(NodesOf(fill.nodes)) && count > 0
    ensures var outcome := ReuseReservation(fill, used, market, count, now);
      && (outcome.Reserved? <==>
            fill.expiresAt.Some? && now < fill.expiresAt.value && exists node :: IsUsable(fill, used, market, node))
      && (outcome.Reserved? ==> 0 < |outcome.nodes| <= count && Distinct(outcome.nodes))
      && (outcome.Reserved? ==> forall node :: node in outcome.nodes ==> IsUsable(fill, used, market, node))
      && (outcome.Reserved? ==> |outcome.nodes| == count || forall node :: IsUsable(fill, used, market, node) ==> node in outcome.nodes)
      && (outcome == Handoff(false) <==>
            !outcome.Reserved? && market.Some? && exists reserved :: reserved in fill.nodes && reserved.market != market.value)
      && (outcome.Reserved? || outcome.Handoff?)
  {
    var nodes := Usable(fill, used, market);
    forall node: string ensures node in nodes <==> IsUsable(fill, used, market, node) { UsableIff(fill, used, market, node); }
    UsableDistinct(fill, used, market, Min(|nodes|, count));
    if |nodes| > 0 { assert nodes[0] in nodes; }
  }

  /** A lost answer and a 5xx may be a lost success, a 402 is a funds shortfall, a 409 means new terms. */
  function ReservationFailure(status: Option<int>): ReserveOutcome {
    if status.None? || status.value >= 500 then TryAgain
    else if status.value == 409 then Handoff(false)
    else if status.value == 402 then TryAgain
    else Fatal
  }

  function Assigned(task: Task, fill: Fill): Task { task.(reservation := Some(fill), request := None) }

  /** A fill with a live hold on at least one node. */
  predicate Fills(response: Response, now: int) {
    && response.Fulfilled? && response.fill.expiresAt.Some? && now < response.fill.expiresAt.value
    && response.fill.nodes != []
  }

  /** Recorded before it is sent, so its webhook always finds it. */
  function Requested(task: Task): Task { task.(request := Some(Request(None))) }

  /** Only a request still recorded is stamped. */
  function Noted(task: Task, now: int): Task {
    if task.request.Some? then task.(request := Some(Request(Some(now)))) else task
  }

  /** The webhook's update: only a request still recorded is filled. */
  function Delivered(task: Task, fill: Fill, now: int): Task {
    if task.request.Some? then Assigned(task, fill).(dueAt := now) else task
  }

  /** A task holds its nodes or waits for them, never both. */
  predicate OneOrOther(task: Task) { !(task.request.Some? && task.reservation.Some?) }

  class ReservationDesk {
    const queue: TaskQueue

    constructor (queue: TaskQueue)
      ensures this.queue == queue
    {
      this.queue := queue;
    }

    ghost predicate Valid()
      reads queue
    {
      queue.Valid() && forall id :: id in queue.tasks ==> OneOrOther(queue.tasks[id])
    }

    /** Persist a webhook's fill; true exactly when the task now holds nodes, so false tells the caller to release them. */
    method RecordRequestFulfilment(id: TaskId, fill: Fill, now: int) returns (held: bool)
      requires Valid()
      modifies queue
      ensures Valid()
      ensures queue.tasks == if id in old(queue.tasks) then old(queue.tasks)[id := Delivered(old(queue.tasks)[id], fill, now)]
                             else old(queue.tasks)
      ensures id in old(queue.tasks) && old(queue.tasks)[id].request.Some? ==>
                queue.tasks == old(queue.tasks)[id := old(queue.tasks)[id].(reservation := Some(fill), request := None, dueAt := now)]
      ensures !(id in old(queue.tasks) && old(queue.tasks)[id].request.Some?) ==> queue.tasks == old(queue.tasks)
      ensures held <==> id in queue.tasks && queue.tasks[id].reservation.Some?
    {
      if id in queue.tasks && queue.tasks[id].request.Some? {
        var task := queue.tasks[id];
        queue.tasks := queue.tasks[id := task.(reservation := Some(fill), dueAt := now, request := None)];
        return true;
      }
      held := id in queue.tasks && queue.tasks[id].reservation.Some?;
    }

    /** Parked LISTs come due at once; everything else is as it was. */
    method ResyncParkedListTasks(now: int)
      requires Valid()
      modifies queue
      ensures Valid() && queue.tasks.Keys == old(queue.tasks).Keys
      ensures forall id :: id in queue.tasks ==>
                queue.tasks[id] == if old(queue.tasks)[id].status == Some(PENDING) && old(queue.tasks)[id].request.Some?
                                   then old(queue.tasks)[id].(dueAt := now) else old(queue.tasks)[id]
    {
      queue.tasks := map id | id in queue.tasks ::
        if queue.tasks[id].status == Some(PENDING) && queue.tasks[id].request.Some? then queue.tasks[id].(dueAt := now)
        else queue.tasks[id];
    }

    method NoteWaiting(id: TaskId, known: Option<Request>, now: int)
      requires Valid()
      modifies queue
      ensures Valid()
      ensures queue.tasks == if id in old(queue.tasks) && !(known.Some? && known.value.since.Some?)
                             then old(queue.tasks)[id := Noted(old(queue.tasks)[id], now)] else old(queue.tasks)
    {
      if known.Some? && known.value.since.Some? { return; }
      if id in queue.tasks && queue.tasks[id].request.Some? {
        queue.tasks := queue.tasks[id := queue.tasks[id].(request := Some(Request(Some(now))))];
      }
    }

    /**
     * Act on the answer to the task's request. Nodes are reported reserved only
     * once the task holds them, and only a live, non-empty fill is taken.
     */
    method SubmitRequest(id: TaskId, known: Option<Request>, response: Response,
                         now: int) returns (outcome: ReserveOutcome)
      requires Valid()
      modifies queue
      ensures Valid() && queue.tasks.Keys == old(queue.tasks).Keys
      ensures forall other :: other in queue.tasks && other != id ==> queue.tasks[other] == old(queue.tasks)[other]
      ensures id in queue.tasks && !outcome.Reserved? ==>
                (queue.tasks[id].request.Some? <==> old(queue.tasks)[id].request.Some?)
                && queue.tasks[id].reservation == old(queue.tasks)[id].reservation
      ensures outcome.Reserved? <==> Fills(response, now)
      ensures outcome.Reserved? ==>
                |outcome.nodes| == |response.fill.nodes|
                && forall i :: 0 <= i < |outcome.nodes| ==> outcome.nodes[i] == response.fill.nodes[i].node
      ensures outcome.Reserved? && id in queue.tasks ==>
                queue.tasks[id] == old(queue.tasks)[id].(reservation := Some(response.fill), request := None)
      ensures outcome.Waiting? <==> response.Queued?
      ensures outcome == Handoff(true) <==> response.Closed? || (response.Fulfilled? && !Fills(response, now))
      ensures outcome == Handoff(false) <==> response == Failed(Some(409))
      ensures outcome == TryAgain <==>
                response.Failed? && (response.status.None? || response.status.value == 402 || response.status.value >= 500)
      ensures outcome == Fatal <==>
                response.Failed? && response.status.Some? && response.status.value < 500 && response.status.value !in {402, 409}
      ensures response.Queued? && id in queue.tasks && old(queue.tasks)[id].request.Some? && (known.None? || known.value.since.None?) ==>
                queue.tasks[id] == old(queue.tasks)[id].(request := Some(Request(Some(now))))
      ensures !response.Queued? && !outcome.Reserved? ==> queue.tasks == old(queue.tasks)
    {
      match response {
        case Failed(status) => return ReservationFailure(status);
        case Queued =>
          NoteWaiting(id, known, now);
          return Waiting;
        case Closed => return Handoff(true);
        case Fulfilled(fill) =>
          if !IsLive(fill, now) || |fill.nodes| == 0 { return Handoff(true); }
          if id in queue.tasks {
            queue.tasks := queue.tasks[id := queue.tasks[id].(reservation := Some(fill), request := None)];
          }
          return Reserved(NodesOf(fill.nodes));
      }
    }

    /**
     * The reserve step of an attempt, on the task as it was loaded. `asked` is
     * the count sent, if anything was; a fill already held is only reused. `atSend`
     * is what was stored at the moment of sending.
     */
    method ReserveListNodes(id: TaskId, loaded: Task, used: seq<string>, market: Option<string>, count: nat,
                            funds: FundsCheck, response: Response, now: int)
      returns (outcome: ReserveOutcome, asked: Option<nat>, ghost atSend: map<TaskId, Task>)
      requires Valid()
      requires id in queue.tasks && loaded.request.None? && loaded.reservation.None? ==> queue.tasks[id].reservation.None?
      requires funds.Affordable? ==> funds.count <= Min(count, MAX_RESERVATION_COUNT)
      modifies queue
      ensures Valid() && queue.tasks.Keys == old(queue.tasks).Keys
      ensures asked == if loaded.reservation.Some? || funds.Insufficient? || funds.NeverPayable? then None
                       else Some(if funds.Affordable? then funds.count else if count < 50 then count else 50)
      ensures loaded.reservation.None? && funds.Insufficient? ==> outcome == TryAgain
      ensures loaded.reservation.None? && funds.NeverPayable? ==> outcome == Fatal
      ensures asked.Some? ==>
                && (outcome.Reserved? <==> Fills(response, now)) && (outcome.Waiting? <==> response.Queued?)
                && (outcome == Handoff(true) <==> response.Closed? || (response.Fulfilled? && !Fills(response, now)))
                && (outcome == Handoff(false) <==> response == Failed(Some(409)))
                && (outcome == TryAgain <==>
                      response.Failed? && (response.status.None? || response.status.value == 402 || response.status.value >= 500))
      ensures asked.Some? && outcome.Reserved? && id in queue.tasks ==>
                queue.tasks[id] == old(queue.tasks)[id].(reservation := Some(response.fill), request := None)
      ensures asked.Some? ==> asked.value <= Min(count, MAX_RESERVATION_COUNT)
      ensures loaded.reservation.Some? ==>
                queue.tasks == old(queue.tasks) && asked.None?
                && outcome == ReuseReservation(loaded.reservation.value, used, market, count, now)
      ensures asked.None? ==> queue.tasks == old(queue.tasks)
      ensures asked.Some? ==>
                atSend == if id in old(queue.tasks) && loaded.request.None?
                          then old(queue.tasks)[id := old(queue.tasks)[id].(request := Some(Request(None)))] else old(queue.tasks)
      ensures asked.Some? && loaded.request.None? && id in queue.tasks ==>
                queue.tasks[id].request.Some? || queue.tasks[id].reservation.Some?
      ensures outcome.Waiting? ==> asked.Some?
    {
      asked, atSend := None, map[];
      if loaded.reservation.Some? {
        outcome := ReuseReservation(loaded.reservation.value, used, market, count, now);
        return;
      }
      var wanted := if count < MAX_RESERVATION_COUNT then count else MAX_RESERVATION_COUNT;
      match funds {
        case Insufficient => outcome := TryAgain; return;
        case NeverPayable => outcome := Fatal; return;
        case Affordable(affordable, _) => wanted := affordable;
        case Unchecked =>
      }
      if loaded.request.None? && id in queue.tasks {
        queue.tasks := queue.tasks[id := queue.tasks[id].(request := Some(Request(None)))];
      }
      asked, atSend := Some(wanted), queue.tasks;
      outcome := SubmitRequest(id, loaded.request, response, now);
    }
  }
}

/** One LIST over any number of runs, its webhook arriving between any two writes of theirs. */
module ReservationSafety {
  import opened Prelude
  import opened Queue
  import opened Reservations

  const LIST: TaskId := 0
  const ME := "consumer"

  datatype Outcome = COMPLETED | RETRY | PARKED | ABORTED

  /** A due time written over: by a retry, by a hand-back, or by a schedule, timeout or rotation change. */
  datatype Write = Retried(dueAt: int) | HandedOver(dueAt: int) | Rewritten(dueAt: int)

  /**
   * Where a run is: loaded, with what it saw; about to send its request; told the
   * answer; waiting for a fill; past its reserve step; ended, its last write to
   * come; or between the two releases of a park.
   */
  datatype Phase =
    | Idle
    | Loaded(reservation: Option<Fill>, request: Option<Request>)
    | Sending(request: Option<Request>)
    | Told(request: Option<Request>, answer: Response)
    | AwaitingFill
    | Working
    | Ended(outcome: Outcome)
    | Reparking

  /**
   * `sent` and `fill` are host-manager's side: a request may have reached it, and
   * what it filled it with. `accepted` says a webhook was answered with true,
   * `last` how the latest claim ended, all its writes done, and `delayed` the last
   * write of the task's due time by a retry, a hand-back or another part of the
   * system, since the task was last claimed, filled by its webhook or parked.
   * These three are history, stored nowhere.
   */
  datatype State = State(
    tasks: map<TaskId, Task>, phase: Phase, sent: bool, fill: Option<Fill>, accepted: bool,
    last: Option<Outcome>, delayed: Option<Write>, now: int, leaseMs: nat)

  datatype Event =
    | Begin
    | HandBack
    | Skip
    | Record
    | Send(answer: Response)
    | HostFills(fill: Fill)
    | TakeAnswer
    | End(outcome: Outcome)
    | Release(dueAt: int)
    | Webhook
    | Resync
    | Rewrite(dueAt: int)
    | Remove
    | Crash
    | Tick(now: int)

  /** A run that waits on its request may park; any other run ends in another way. */
  predicate CanEnd(phase: Phase, outcome: Outcome) {
    phase.AwaitingFill? || (phase.Working? && outcome != PARKED)
  }

  predicate Enabled(s: State, e: Event) {
    match e
    case Begin => s.phase.Idle? && LIST in s.tasks && Claimable(s.tasks[LIST], s.now)
    case HandBack => s.phase.Idle? && LIST in s.tasks && Claimable(s.tasks[LIST], s.now)
    case Skip => s.phase.Loaded?
    case Record => s.phase.Loaded? && s.phase.reservation.None?
    case Send(answer) => s.phase.Sending? && (answer.Fulfilled? ==> s.fill == Some(answer.fill)) && (answer.Queued? ==> s.fill.None?)
    case HostFills(_) => s.sent && s.fill.None?
    case TakeAnswer => s.phase.Told?
    case End(outcome) => CanEnd(s.phase, outcome)
    case Release(_) => s.phase.Ended? || s.phase.Reparking?
    case Webhook => s.fill.Some?
    case Resync => true
    case Rewrite(_) => true
    case Remove => true
    case Crash => true
    case Tick(now) =>
      s.now <= now && (!s.phase.Idle? && LIST in s.tasks && s.tasks[LIST].lease.Some? ==> now <= s.tasks[LIST].lease.value)
  }

  function Put(tasks: map<TaskId, Task>, task: Task): map<TaskId, Task> {
    if LIST in tasks then tasks[LIST := task] else tasks
  }

  function AnswerNext(s: State): State
    requires s.phase.Told?
  {
    if LIST !in s.tasks then s.(phase := if s.phase.answer.Queued? then AwaitingFill else Working)
    else match s.phase.answer
      case Queued =>
        var told := s.phase.request.Some? && s.phase.request.value.since.Some?;
        s.(phase := AwaitingFill, tasks := if told then s.tasks else Put(s.tasks, Noted(s.tasks[LIST], s.now)))
      case Fulfilled(fill) =>
        s.(phase := Working,
           tasks := if IsLive(fill, s.now) && fill.nodes != [] then Put(s.tasks, Assigned(s.tasks[LIST], fill)) else s.tasks)
      case Closed => s.(phase := Working)
      case Failed(_) => s.(phase := Working)
  }

  /** The last write of a run, or, for a park whose request was filled, the first of two. */
  function ReleaseNext(s: State, dueAt: int): State
    requires s.phase.Ended? || s.phase.Reparking?
  {
    if s.phase.Reparking? then
      s.(phase := Idle, last := Some(PARKED), delayed := None,
        tasks := ParkReleased(s.tasks, LIST, ME, false, s.now))
    else match s.phase.outcome
      case COMPLETED => s.(phase := Idle, last := Some(COMPLETED), tasks := Deleted(s.tasks, LIST, ME))
      case RETRY =>
        s.(phase := Idle, last := Some(RETRY), tasks := Rescheduled(s.tasks, LIST, ME, dueAt),
           delayed := Some(Retried(dueAt)))
      case ABORTED => s.(phase := Idle, last := Some(ABORTED))
      case PARKED =>
        if ParkMatches(s.tasks, LIST, ME, true) then
          s.(phase := Idle, last := Some(PARKED), delayed := None, tasks := ParkReleased(s.tasks, LIST, ME, true, dueAt))
        else s.(phase := Reparking)
  }

  function Next(s: State, e: Event): State
    requires Enabled(s, e)
  {
    match e
    case Begin =>
      var task := s.tasks[LIST];
      s.(phase := Loaded(task.reservation, task.request), last := None, delayed := None,
         tasks := Incremented(s.tasks[LIST := Claim(task, ME, s.now, s.leaseMs)], LIST, ME))
    case HandBack =>
      s.(last := None, delayed := Some(HandedOver(s.now + REQUEUE_DELAY_MS)), tasks := HandedBack(s.tasks, LIST, s.now))
    case Skip => s.(phase := Working)
    case Record =>
      s.(phase := Sending(s.phase.request),
         tasks := if s.phase.request.None? && LIST in s.tasks then Put(s.tasks, Requested(s.tasks[LIST])) else s.tasks)
    case Send(answer) => s.(sent := true, phase := Told(s.phase.request, answer))
    case HostFills(fill) => s.(fill := Some(fill))
    case TakeAnswer => AnswerNext(s)
    case End(outcome) => s.(phase := Ended(outcome))
    case Release(dueAt) => ReleaseNext(s, dueAt)
    case Webhook =>
      if LIST in s.tasks then
        var task := Delivered(s.tasks[LIST], s.fill.value, s.now);
        s.(tasks := Put(s.tasks, task), accepted := s.accepted || task.reservation.Some?,
           delayed := if s.tasks[LIST].request.Some? then None else s.delayed)
      else s
    case Resync =>
      if LIST in s.tasks && s.tasks[LIST].status == Some(PENDING) && s.tasks[LIST].request.Some? then
        s.(tasks := Put(s.tasks, s.tasks[LIST].(dueAt := s.now)), delayed := None)
      else s
    case Rewrite(dueAt) =>
      if LIST in s.tasks then
        s.(tasks := Put(s.tasks, s.tasks[LIST].(dueAt := dueAt)), delayed := Some(Rewritten(dueAt)))
      else s
    case Remove => s.(tasks := map[])
    case Crash => s.(phase := Idle, last := None)
    case Tick(now) => s.(now := now)
  }

  function Initial(task: Task, now: int, leaseMs: nat): State {
    State(map[LIST := task], Idle, false, None, false, None, None, now, leaseMs)
  }

  predicate IsRun(s: State, events: seq<Event>)
    decreases |events|
  {
    events != [] ==> Enabled(s, events[0]) && IsRun(Next(s, events[0]), events[1..])
  }

  function Final(s: State, events: seq<Event>): State
    requires IsRun(s, events)
    decreases |events|
  {
    if events == [] then s else Final(Next(s, events[0]), events[1..])
  }

  predicate Asked(task: Task) { task.request.Some? || task.reservation.Some? }

  predicate PhaseOk(s: State, task: Task) {
    && (!s.phase.Idle? ==> task.claimedBy == Some(ME))
    && match s.phase
       case Loaded(reservation, request) =>
         (reservation.Some? ==> task.reservation == reservation)
         && (reservation.None? && request.None? ==> !s.sent && !Asked(task))
         && (request.Some? ==> Asked(task))
       case Sending(_) => Asked(task)
       case Told(_, answer) => Asked(task) && (answer.Fulfilled? ==> s.fill == Some(answer.fill))
       case AwaitingFill => Asked(task)
       case Ended(outcome) => outcome == PARKED ==> Asked(task)
       case Reparking => task.reservation.Some?
       case _ => true
  }

  /** After a park the task is free, and holds its fill or waits for it. */
  predicate Parked(task: Task) {
    && task.status == Some(PENDING) && task.claimedBy.None?
    && if task.reservation.Some? then task.request.None? else task.request.Some?
  }

  /** A fill held is due, and so is a task being run, unless its due time was written since. */
  predicate DueOk(s: State, task: Task) {
    && task.status.Some?
    && (s.delayed.Some? ==> task.dueAt == s.delayed.value.dueAt)
    && (s.delayed.None? && (task.reservation.Some? || !s.phase.Idle?) ==> task.dueAt <= s.now)
    && (!s.phase.Idle? || s.last in {Some(PARKED), Some(ABORTED)} ==> s.delayed.None? || s.delayed.value.Rewritten?)
    && (s.last in {Some(PARKED), Some(RETRY)} ==> task.lease.None?)
    && (s.last == Some(ABORTED) ==> task.lease.Some?)
  }

  predicate Inv(s: State) {
    && s.tasks.Keys <= {LIST}
    && (s.last.Some? ==> s.phase.Idle?)
    && (s.fill.Some? ==> s.sent)
    && (LIST in s.tasks ==>
          var task := s.tasks[LIST];
          && OneOrOther(task) && WellFormed(task) && PhaseOk(s, task) && DueOk(s, task)
          && (task.reservation.Some? ==> task.reservation == s.fill)
          && (s.sent ==> Asked(task))
          && (s.accepted ==> task.reservation.Some?)
          && (s.last == Some(PARKED) ==> Parked(task)))
  }

  lemma ReleaseKeeps(s: State, dueAt: int)
    requires Inv(s) && Enabled(s, Release(dueAt))
    ensures Inv(ReleaseNext(s, dueAt))
  {
  }

  lemma AnswerKeeps(s: State)
    requires Inv(s) && Enabled(s, TakeAnswer)
    ensures Inv(AnswerNext(s))
  {
  }

  lemma StepKeeps(s: State, e: Event)
    requires Inv(s) && Enabled(s, e)
    ensures Inv(Next(s, e))
  {
    if e.Release? { ReleaseKeeps(s, e.dueAt); }
    else if e.TakeAnswer? { AnswerKeeps(s); }
  }

  lemma {:induction false} RunKeeps(s: State, events: seq<Event>)
    requires Inv(s) && IsRun(s, events)
    ensures Inv(Final(s, events))
    decreases |events|
  {
    if events != [] {
      StepKeeps(s, events[0]);
      RunKeeps(Next(s, events[0]), events[1..]);
    }
  }

  predicate IsNew(task: Task) {
    task.request.None? && task.reservation.None? && task.status == Some(PENDING) && task.claimedBy.None? && task.lease.None?
  }

  /**
   * For every interleaving of runs and webhook: a task never holds both a
   * reservation and a pending request; and after a run that parked, the task is
   * free, and either still waits for its fill, or holds it and is due now unless
   * another part of the system wrote its due time since. So a fill once accepted is
   * never parked away.
   */
  lemma AcceptedFillIsNeverParkedAway(task: Task, now: int, leaseMs: nat, events: seq<Event>)
    requires IsNew(task) && IsRun(Initial(task, now, leaseMs), events)
    ensures var s := Final(Initial(task, now, leaseMs), events);
      LIST in s.tasks ==>
        && !(s.tasks[LIST].request.Some? && s.tasks[LIST].reservation.Some?)
        && (s.accepted ==> s.tasks[LIST].reservation == s.fill && s.fill.Some?)
        && (s.last == Some(PARKED) ==> s.tasks[LIST].status == Some(PENDING) && s.tasks[LIST].claimedBy.None?)
        && (s.last == Some(PARKED) && !s.accepted && s.tasks[LIST].reservation.None? ==> s.tasks[LIST].request.Some?)
        && (s.last == Some(PARKED) && s.accepted ==>
              (s.delayed.None? || s.delayed.value.Rewritten?)
              && (s.tasks[LIST].dueAt <= s.now <==> s.delayed.None? || s.delayed.value.dueAt <= s.now))
  {
    RunKeeps(Initial(task, now, leaseMs), events);
  }

  /**
   * When a fill once accepted can be assigned, over every interleaving, whatever
   * the last run came to. With no run under way, the task holds the fill, and it
   * can be claimed at a later time exactly when that is past the due time written
   * last by a retry, a hand-back or another part of the system, if any was since
   * the claim or the fill, and past the lease an abort or a crash left, if one did.
   * A park or an abort leaves no due time of the run's own.
   */
  lemma AcceptedFillClaimableIff(task: Task, now: int, leaseMs: nat, events: seq<Event>, later: int)
    requires IsNew(task) && IsRun(Initial(task, now, leaseMs), events)
    requires var s := Final(Initial(task, now, leaseMs), events);
      s.phase.Idle? && LIST in s.tasks && s.accepted && s.now <= later
    ensures var s := Final(Initial(task, now, leaseMs), events); var held := s.tasks[LIST];
      && held.reservation == s.fill && s.fill.Some?
      && (Claimable(held, later) <==>
            (s.delayed.None? || s.delayed.value.dueAt <= later) && (held.lease.None? || held.lease.value < later))
      && (held.dueAt <= s.now <==> s.delayed.None? || s.delayed.value.dueAt <= s.now)
      && (s.last in {Some(PARKED), Some(ABORTED)} ==> s.delayed.None? || s.delayed.value.Rewritten?)
      && (s.last in {Some(PARKED), Some(RETRY)} ==> held.lease.None?)
      && (s.last == Some(ABORTED) ==> held.lease.Some?)
  {
    RunKeeps(Initial(task, now, leaseMs), events);
    var t := Final(Initial(task, now, leaseMs), events);
    var held := t.tasks[LIST];
    assert held.status.value.PENDING? || held.status.value.PROCESSING?;
    assert Claimable(held, later) <==> held.dueAt <= later && (held.lease.None? || held.lease.value < later);
  }

  /** A step that writes no due time but a webhook's, a resync's or a park's. */
  predicate LeavesDue(s: State, e: Event) {
    !e.Rewrite? && !e.HandBack? && !(e.Release? && s.phase == Ended(RETRY))
  }

  predicate AllLeaveDue(s: State, events: seq<Event>)
    requires IsRun(s, events)
    decreases |events|
  {
    events != [] ==> LeavesDue(s, events[0]) && AllLeaveDue(Next(s, events[0]), events[1..])
  }

  lemma {:induction false} NoDelay(s: State, events: seq<Event>)
    requires s.delayed.None? && IsRun(s, events) && AllLeaveDue(s, events)
    ensures Final(s, events).delayed.None?
    decreases |events|
  {
    if events != [] { NoDelay(Next(s, events[0]), events[1..]); }
  }

  /**
   * So whatever runs, parks, aborts and crashes follow the webhook that recorded
   * the fill: while no retry, hand-back or other writer touches its due time, the
   * task holds the fill and is due.
   */
  lemma FillStaysDue(task: Task, now: int, leaseMs: nat, before: seq<Event>, after: seq<Event>)
    requires IsNew(task) && IsRun(Initial(task, now, leaseMs), before)
    requires var s := Final(Initial(task, now, leaseMs), before);
      && LIST in s.tasks && s.tasks[LIST].request.Some? && Enabled(s, Webhook)
      && IsRun(Next(s, Webhook), after) && AllLeaveDue(Next(s, Webhook), after)
    ensures var t := Final(Next(Final(Initial(task, now, leaseMs), before), Webhook), after);
      LIST in t.tasks && t.accepted ==> t.tasks[LIST].reservation == t.fill && t.fill.Some? && t.tasks[LIST].dueAt <= t.now
  {
    var s := Final(Initial(task, now, leaseMs), before);
    RunKeeps(Initial(task, now, leaseMs), before);
    StepKeeps(s, Webhook);
    RunKeeps(Next(s, Webhook), after);
    NoDelay(Next(s, Webhook), after);
  }

  lemma {:induction false} RunsJoin(s: State, events: seq<Event>, more: seq<Event>)
    requires IsRun(s, events) && IsRun(Final(s, events), more)
    ensures IsRun(s, events + more) && Final(s, events + more) == Final(Final(s, events), more)
    decreases |events|
  {
    if events == [] {
      assert events + more == more;
    } else {
      RunsJoin(Next(s, events[0]), events[1..], more);
      assert (events + more)[1..] == events[1..] + more;
    }
  }

  lemma RunTail(s: State, events: seq<Event>, e: Event)
    requires IsRun(s, events) && Enabled(Final(s, events), e)
    ensures IsRun(s, events + [e]) && Final(s, events + [e]) == Next(Final(s, events), e)
  {
    assert IsRun(Final(s, events), [e]);
    RunsJoin(s, events, [e]);
  }

  /** A first run records and sends its request, and is told `answer`. */
  function Asking(answer: Response): seq<Event> { [] + [Begin] + [Record] + [Send(answer)] + [TakeAnswer] }

  lemma AskingRuns(task: Task, now: int, leaseMs: nat, answer: Response)
    requires IsNew(task) && task.dueAt <= now && !answer.Fulfilled?
    ensures var s := Initial(task, now, leaseMs);
      && IsRun(s, Asking(answer))
      && var t := Final(s, Asking(answer));
         && t.phase == (if answer.Queued? then AwaitingFill else Working) && t.sent && t.fill.None? && t.now == now
         && LIST in t.tasks && t.tasks[LIST].request.Some? && t.tasks[LIST].claimedBy == Some(ME)
  {
    var s := Initial(task, now, leaseMs);
    RunTail(s, [], Begin);
    RunTail(s, [] + [Begin], Record);
    RunTail(s, [] + [Begin] + [Record], Send(answer));
    RunTail(s, [] + [Begin] + [Record] + [Send(answer)], TakeAnswer);
  }

  /** The fill arrives while the run goes on, which then retries. */
  function FilledThenRetried(fill: Fill, dueAt: int): seq<Event> {
    [] + [HostFills(fill)] + [Webhook] + [End(RETRY)] + [Release(dueAt)]
  }

  /**
   * A retry does delay a fill: the answer to a task's first request is lost, the
   * webhook brings the fill while the run ends, and the task holds the nodes but
   * is due only when the retry is.
   */
  lemma RetryDelaysTheFill(task: Task, now: int, leaseMs: nat, fill: Fill, dueAt: int)
    requires IsNew(task) && task.dueAt <= now
    ensures var s, events := Initial(task, now, leaseMs), Asking(Failed(None)) + FilledThenRetried(fill, dueAt);
      && IsRun(s, events)
      && var t := Final(s, events);
         && t.accepted && t.phase.Idle? && t.last == Some(RETRY) && t.now == now
         && LIST in t.tasks && t.tasks[LIST].reservation == Some(fill) && t.tasks[LIST].dueAt == dueAt
  {
    AskingRuns(task, now, leaseMs, Failed(None));
    var s := Final(Initial(task, now, leaseMs), Asking(Failed(None)));
    RunTail(s, [], HostFills(fill));
    RunTail(s, [] + [HostFills(fill)], Webhook);
    RunTail(s, [] + [HostFills(fill)] + [Webhook], End(RETRY));
    RunTail(s, [] + [HostFills(fill)] + [Webhook] + [End(RETRY)], Release(dueAt));
    RunsJoin(Initial(task, now, leaseMs), Asking(Failed(None)), FilledThenRetried(fill, dueAt));
  }

  /** The run parks for its renewal, the webhook fills the request, and the schedule is changed. */
  function ParkedThenMoved(renewal: int, fill: Fill, firing: int): seq<Event> {
    [] + [End(PARKED)] + [Release(renewal)] + [HostFills(fill)] + [Webhook] + [Rewrite(firing)]
  }

  /**
   * And so does a new schedule: the parked task's fill was accepted, and made it
   * due, but the task comes due only at the schedule's next firing.
   */
  lemma ScheduleDelaysTheFill(task: Task, now: int, leaseMs: nat, renewal: int, fill: Fill, firing: int)
    requires IsNew(task) && task.dueAt <= now
    ensures var s, events := Initial(task, now, leaseMs), Asking(Queued) + ParkedThenMoved(renewal, fill, firing);
      && IsRun(s, events)
      && var t := Final(s, events);
         && t.accepted && t.phase.Idle? && t.last == Some(PARKED) && t.now == now
         && LIST in t.tasks && t.tasks[LIST].reservation == Some(fill) && t.tasks[LIST].dueAt == firing
  {
    AskingRuns(task, now, leaseMs, Queued);
    var s := Final(Initial(task, now, leaseMs), Asking(Queued));
    RunTail(s, [], End(PARKED));
    RunTail(s, [] + [End(PARKED)], Release(renewal));
    RunTail(s, [] + [End(PARKED)] + [Release(renewal)], HostFills(fill));
    RunTail(s, [] + [End(PARKED)] + [Release(renewal)] + [HostFills(fill)], Webhook);
    RunTail(s, [] + [End(PARKED)] + [Release(renewal)] + [HostFills(fill)] + [Webhook], Rewrite(firing));
    RunsJoin(Initial(task, now, leaseMs), Asking(Queued), ParkedThenMoved(renewal, fill, firing));
  }
}
