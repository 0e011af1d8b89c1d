/**
 * The queue listing end to end: its slots are the units of an epoch walk, and what
 * an attempt records is what some walker heard from the Credit Manager.
 */
module SlotWalks {
  import opened Prelude
  import opened Keys
  import opened Batch
  import opened EpochWalk
  import opened Confirmations
  import Slots
  import opened Reconciliation
  import S = SlotSafety

  /** Slot i is the unit with id i. */
  ghost predicate ListsSlots(units: seq<BatchUnit>, target: nat) {
    |units| == target && forall slot: nat :: slot < target ==> units[slot].id == Decimal(slot)
  }

  function JobFor(confirmed: seq<Confirmation>, id: string): Option<string> {
    if confirmed == [] then None
    else
      var last := confirmed[|confirmed| - 1];
      if last.id == id && last.receipt.job.Some? then last.receipt.job else JobFor(confirmed[..|confirmed| - 1], id)
  }

  lemma {:induction false} JobForIs(confirmed: seq<Confirmation>, id: string)
    ensures JobFor(confirmed, id).Some? ==>
              exists c :: c in confirmed && c.id == id && c.receipt.job == JobFor(confirmed, id)
    ensures forall c :: c in confirmed && c.id == id && c.receipt.job.Some? ==> JobFor(confirmed, id).Some?
  {
    if confirmed != [] {
      var front, last := confirmed[..|confirmed| - 1], confirmed[|confirmed| - 1];
      JobForIs(front, id);
      assert confirmed == front + [last];
      if last.id == id && last.receipt.job.Some? { assert last in confirmed; }
      else if JobFor(front, id).Some? {
        var c :| c in front && c.id == id && c.receipt.job == JobFor(front, id);
        assert c in confirmed;
      }
    }
  }

  /** A walk's confirmations by slot. */
  function SlotsOf(confirmed: seq<Confirmation>, target: nat): map<nat, string> {
    map slot: nat | slot < target && JobFor(confirmed, Decimal(slot)).Some? :: JobFor(confirmed, Decimal(slot)).value
  }

  /** A frozen verdict confirms the slot with this job. */
  ghost predicate SlotBacked(plan: Plan, ledger: Ledger, op: Op, slot: nat, job: string) {
    exists c :: Backed(plan, ledger, op, c) && c.id == Decimal(slot) && c.receipt.job == Some(job)
  }

  ghost predicate AnswersBacked(plan: Plan, ledger: Ledger, op: Op, answered: map<nat, string>) {
    forall slot :: slot in answered ==> SlotBacked(plan, ledger, op, slot, answered[slot])
  }

  lemma AnswersStay(plan: Plan, old_: Ledger, new_: Ledger, op: Op, answered: map<nat, string>)
    requires Extends(old_, new_) && AnswersBacked(plan, old_, op, answered)
    ensures AnswersBacked(plan, new_, op, answered)
  {
    forall slot | slot in answered ensures SlotBacked(plan, new_, op, slot, answered[slot]) {
      assert SlotBacked(plan, old_, op, slot, answered[slot]);
      var c :| Backed(plan, old_, op, c) && c.id == Decimal(slot) && c.receipt.job == Some(answered[slot]);
      BackedStays(plan, old_, new_, op, c);
    }
  }

  lemma WalkIsBacked(plan: Plan, ledger: Ledger, walker: Walker, target: nat)
    requires Accounted(plan, ledger, walker)
    ensures AnswersBacked(plan, ledger, walker.op, SlotsOf(walker.walk.confirmed, target))
  {
    var confirmed := SlotsOf(walker.walk.confirmed, target);
    forall slot | slot in confirmed ensures SlotBacked(plan, ledger, walker.op, slot, confirmed[slot]) {
      JobForIs(walker.walk.confirmed, Decimal(slot));
      var c :| c in walker.walk.confirmed && c.id == Decimal(slot) && c.receipt.job == Some(confirmed[slot]);
      assert Backed(plan, ledger, walker.op, c);
    }
  }

  /** Whatever was answered for a slot is answered again, as it was. */
  lemma BackedAnswersAgree(plan: Plan, ledger: Ledger, op: Op, answered: map<nat, string>, confirmed: map<nat, string>)
    requires PlanOk(plan) && EntriesOk(ledger)
    requires AnswersBacked(plan, ledger, op, answered) && AnswersBacked(plan, ledger, op, confirmed)
    ensures S.Agree(answered, confirmed) && AnswersBacked(plan, ledger, op, answered + confirmed)
  {
    forall slot | slot in answered && slot in confirmed ensures answered[slot] == confirmed[slot] {
      assert SlotBacked(plan, ledger, op, slot, answered[slot]) && SlotBacked(plan, ledger, op, slot, confirmed[slot]);
      var c :| Backed(plan, ledger, op, c) && c.id == Decimal(slot) && c.receipt.job == Some(answered[slot]);
      var d :| Backed(plan, ledger, op, d) && d.id == Decimal(slot) && d.receipt.job == Some(confirmed[slot]);
      OneReceipt(plan, ledger, op, c, d);
    }
  }

  /** A listed job has an address: every confirmation carries it. */
  ghost predicate NamesJobs(confirmed: seq<Confirmation>) {
    forall c :: c in confirmed ==> c.receipt.job.Some?
  }

  lemma OkCovers(plan: Plan, ledger: Ledger, walker: Walker, target: nat)
    requires Accounted(plan, ledger, walker) && ListsSlots(plan[walker.op], target) && NamesJobs(walker.walk.confirmed)
    requires walker.walk.Ended?
    ensures S.Covers(target, SlotsOf(walker.walk.confirmed, target), walker.walk.result == Ok)
  {
    var units, confirmed := plan[walker.op], walker.walk.confirmed;
    if walker.walk.result == Ok {
      forall slot: nat | slot < target ensures slot in SlotsOf(confirmed, target) {
        assert units[slot] in units && units[slot].id in Ids(units);
        var c :| c in confirmed && c.id == Decimal(slot);
        JobForIs(confirmed, Decimal(slot));
      }
    }
  }

  /** The Credit Manager with its walkers, beside the stored task of one listing. */
  datatype Joint = Joint(world: World, list: S.State)

  datatype JointEvent =
    | Outside(step: EpochWalk.Event)
    | Heard(w: nat)
    | Inside(own: S.Event)

  /**
   * The worker's walk over, its confirmations go to the attempt that waits for
   * them; no job is listed in two slots.
   */
  ghost predicate Enabled(plan: Plan, op: Op, j: Joint, e: JointEvent) {
    match e
    case Outside(step) => EpochWalk.Enabled(plan, j.world, step)
    case Heard(w) =>
      && w in j.world.walkers && j.world.walkers[w].op == op && j.world.walkers[w].walk.Ended?
      && j.list.attempt == Some(S.Waiting) && ConfirmedJobs(j.list.records) < j.list.target
      && var confirmed := j.world.walkers[w].walk.confirmed;
         NamesJobs(confirmed) && S.OneSlotAJob(j.list.answered + SlotsOf(confirmed, j.list.target))
    case Inside(own) => !own.Walk? && S.Enabled(j.list, own)
  }

  ghost function WalkOf(j: Joint, w: nat): S.Event
    requires w in j.world.walkers && j.world.walkers[w].walk.Ended?
  {
    var walk := j.world.walkers[w].walk;
    S.Walk(SlotsOf(walk.confirmed, j.list.target), walk.result == Ok)
  }

  ghost predicate Inv(plan: Plan, op: Op, j: Joint) {
    && EpochWalk.Inv(plan, j.world) && AllAccounted(plan, j.world) && S.Inv(j.list)
    && op in plan && ListsSlots(plan[op], j.list.target) && AnswersBacked(plan, j.world.ledger, op, j.list.answered)
  }

  /** So a walk heard is always one the listing's own steps allow for. */
  lemma HeardIsWalk(plan: Plan, op: Op, j: Joint, w: nat)
    requires PlanOk(plan) && Inv(plan, op, j) && Enabled(plan, op, j, Heard(w))
    ensures S.Enabled(j.list, WalkOf(j, w))
    ensures AnswersBacked(plan, j.world.ledger, op, S.Next(j.list, WalkOf(j, w)).answered)
  {
    var walker := j.world.walkers[w];
    assert Accounted(plan, j.world.ledger, walker);
    InvEntries(plan, j.world);
    WalkIsBacked(plan, j.world.ledger, walker, j.list.target);
    BackedAnswersAgree(plan, j.world.ledger, op, j.list.answered, SlotsOf(walker.walk.confirmed, j.list.target));
    OkCovers(plan, j.world.ledger, walker, j.list.target);
  }

  ghost function Next(plan: Plan, op: Op, j: Joint, e: JointEvent): Joint
    requires PlanOk(plan) && Inv(plan, op, j) && Enabled(plan, op, j, e)
  {
    match e
    case Outside(step) => j.(world := EpochWalk.Next(plan, j.world, step))
    case Heard(w) =>
      HeardIsWalk(plan, op, j, w);
      j.(list := S.Next(j.list, WalkOf(j, w)))
    case Inside(own) => j.(list := S.Next(j.list, own))
  }

  lemma StepKeeps(plan: Plan, op: Op, j: Joint, e: JointEvent)
    requires PlanOk(plan) && Inv(plan, op, j) && Enabled(plan, op, j, e)
    ensures Inv(plan, op, Next(plan, op, j, e)) && Next(plan, op, j, e).list.target == j.list.target
  {
    if e.Outside? {
      EpochWalk.StepKeeps(plan, j.world, e.step);
      StepAccounts(plan, j.world, e.step);
      StepExtends(plan, j.world, e.step);
      AnswersStay(plan, j.world.ledger, EpochWalk.Next(plan, j.world, e.step).ledger, op, j.list.answered);
    } else if e.Heard? {
      HeardIsWalk(plan, op, j, e.w);
      S.StepKeeps(j.list, WalkOf(j, e.w));
    } else {
      S.StepKeeps(j.list, e.own);
    }
  }

  function Initial(target: nat): Joint { Joint(EMPTY, S.Initial(target)) }

  ghost predicate IsRun(plan: Plan, op: Op, j: Joint, events: seq<JointEvent>)
    requires PlanOk(plan) && Inv(plan, op, j)
    decreases |events|
  {
    events != [] ==>
      Enabled(plan, op, j, events[0])
      && (StepKeeps(plan, op, j, events[0]); IsRun(plan, op, Next(plan, op, j, events[0]), events[1..]))
  }

  ghost function Final(plan: Plan, op: Op, j: Joint, events: seq<JointEvent>): Joint
    requires PlanOk(plan) && Inv(plan, op, j) && IsRun(plan, op, j, events)
    decreases |events|
  {
    if events == [] then j
    else
      StepKeeps(plan, op, j, events[0]);
      Final(plan, op, Next(plan, op, j, events[0]), events[1..])
  }

  lemma {:induction false} RunKeeps(plan: Plan, op: Op, j: Joint, events: seq<JointEvent>)
    requires PlanOk(plan) && Inv(plan, op, j) && IsRun(plan, op, j, events)
    ensures Inv(plan, op, Final(plan, op, j, events)) && Final(plan, op, j, events).list.target == j.list.target
    decreases |events|
  {
    if events != [] {
      StepKeeps(plan, op, j, events[0]);
      RunKeeps(plan, op, Next(plan, op, j, events[0]), events[1..]);
    }
  }

  lemma InitialIsOk(plan: Plan, op: Op, target: nat)
    requires PlanOk(plan) && op in plan && ListsSlots(plan[op], target)
    ensures Inv(plan, op, Initial(target))
  {
  }

  /** A listing's events, from nothing stored. */
  ghost predicate Happens(plan: Plan, op: Op, target: nat, events: seq<JointEvent>)
    requires PlanOk(plan) && op in plan && ListsSlots(plan[op], target)
  {
    InitialIsOk(plan, op, target);
    IsRun(plan, op, Initial(target), events)
  }

  ghost function Outcome(plan: Plan, op: Op, target: nat, events: seq<JointEvent>): Joint
    requires PlanOk(plan) && op in plan && ListsSlots(plan[op], target) && Happens(plan, op, target, events)
  {
    InitialIsOk(plan, op, target);
    Final(plan, op, Initial(target), events)
  }

  /** The slot's one record holds a job the Credit Manager landed for it, under exactly one key. */
  ghost predicate LandedOnce(plan: Plan, ledger: Ledger, op: Op, slot: nat) {
    && op in plan
    && (exists epoch: nat :: LandedUnder(plan, ledger, op, epoch, Decimal(slot)))
    && (forall e1: nat, e2: nat ::
          LandedUnder(plan, ledger, op, e1, Decimal(slot)) && LandedUnder(plan, ledger, op, e2, Decimal(slot)) ==> e1 == e2)
  }

  lemma BackedLandedOnce(plan: Plan, ledger: Ledger, op: Op, slot: nat, job: string)
    requires PlanOk(plan) && EntriesOk(ledger) && op in plan && SlotBacked(plan, ledger, op, slot, job)
    ensures LandedOnce(plan, ledger, op, slot)
  {
    var c :| Backed(plan, ledger, op, c) && c.id == Decimal(slot) && c.receipt.job == Some(job);
    var epoch: nat :| ConfirmedUnder(plan, ledger, op, epoch, c);
    ConfirmedHasLanded(plan, ledger, op, epoch, c);
    forall e1: nat, e2: nat |
      LandedUnder(plan, ledger, op, e1, Decimal(slot)) && LandedUnder(plan, ledger, op, e2, Decimal(slot)) ensures e1 == e2
    {
      LandsOnce(plan, ledger, op, e1, e2, Decimal(slot));
    }
  }

  /**
   * End to end, over any walks, lost replies, crashes and reclaims: every recorded
   * slot landed, under exactly one key; it has one record, of its own job, and
   * the job its row; no job has two rows or two events; and a completed run
   * recorded, hence landed, every slot.
   */
  lemma EverySlotLandsOnceAndIsRecorded(plan: Plan, op: Op, target: nat, events: seq<JointEvent>)
    requires PlanOk(plan) && op in plan && ListsSlots(plan[op], target)
    requires Happens(plan, op, target, events)
    ensures var j := Outcome(plan, op, target, events); var s := j.list;
      && (forall i, k :: 0 <= i < k < |s.records| ==> s.records[i].unit != s.records[k].unit)
      && (forall record :: record in s.records ==>
            && record.unit < target && record.unit in s.answered && record.jobs == [s.answered[record.unit]]
            && s.answered[record.unit] in s.rows && LandedOnce(plan, j.world.ledger, op, record.unit))
      && Distinct(s.rows) && Distinct(s.events)
      && (s.completed ==> forall slot :: 0 <= slot < target ==> slot in Slots.RecordedSlots(s.records))
  {
    InitialIsOk(plan, op, target);
    RunKeeps(plan, op, Initial(target), events);
    var j := Final(plan, op, Initial(target), events);
    InvEntries(plan, j.world);
    forall record | record in j.list.records
      ensures record.unit < target && record.unit in j.list.answered && record.jobs == [j.list.answered[record.unit]]
      ensures j.list.answered[record.unit] in j.list.rows && LandedOnce(plan, j.world.ledger, op, record.unit)
    {
      assert S.RecordOk(j.list, record);
      BackedLandedOnce(plan, j.world.ledger, op, record.unit, j.list.answered[record.unit]);
    }
  }
}
