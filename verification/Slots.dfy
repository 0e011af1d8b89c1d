/**
 * An API-key LIST into a market's queue: one batch lists every slot of the
 * frozen target, and each slot confirmed is recorded once.
 */
module Slots {
  import opened Prelude
  import opened Records
  import opened Reconciliation

  /** What the batch walk answers for one slot, and what the worker then emits. */
  datatype Confirmation = Confirmation(slot: nat, job: string, tx: string)

  function RecordOf(c: Confirmation): TxRecord { TxRecord(c.slot, c.tx, 0, LANDED, None, [c.job], []) }

  function RecordedSlots(transactions: seq<TxRecord>): set<nat> {
    set r | r in transactions && r.status == LANDED :: r.unit
  }

  /** Exactly the slots without a confirmed record, in order: gaps included. */
  method PendingSlots(transactions: seq<TxRecord>, target: nat) returns (slots: seq<nat>)
    ensures forall i, j :: 0 <= i < j < |slots| ==> slots[i] < slots[j]
    ensures forall slot: nat :: slot in slots <==> slot < target && slot !in RecordedSlots(transactions)
    ensures forall slot: nat :: slot in slots <==>
              slot < target && forall r :: r in transactions && r.unit == slot ==> r.status != LANDED
  {
    var confirmed := RecordedSlots(transactions);
    slots := [];
    for slot := 0 to target
      invariant forall i, j :: 0 <= i < j < |slots| ==> slots[i] < slots[j]
      invariant forall i :: 0 <= i < |slots| ==> slots[i] < slot
      invariant forall s: nat :: s in slots <==> s < slot && s !in confirmed
    {
      if slot !in confirmed { slots := slots + [slot]; }
    }
  }

  function Unrecorded(confirmed: seq<Confirmation>, slots: set<nat>): seq<Confirmation> {
    if confirmed == [] then []
    else
      var last := confirmed[|confirmed| - 1];
      Unrecorded(confirmed[..|confirmed| - 1], slots) + (if last.slot in slots then [last] else [])
  }

  lemma {:induction false} UnrecordedIff(confirmed: seq<Confirmation>, slots: set<nat>, c: Confirmation)
    ensures c in Unrecorded(confirmed, slots) <==> c in confirmed && c.slot in slots
  {
    if confirmed != [] {
      var front, last := confirmed[..|confirmed| - 1], confirmed[|confirmed| - 1];
      UnrecordedIff(front, slots, c);
      assert confirmed == front + [last];
    }
  }

  lemma {:induction false} UnrecordedDistinct(confirmed: seq<Confirmation>, slots: set<nat>)
    requires Distinct(confirmed)
    ensures Distinct(Unrecorded(confirmed, slots))
  {
    if confirmed != [] {
      var front, last := confirmed[..|confirmed| - 1], confirmed[|confirmed| - 1];
      UnrecordedDistinct(front, slots);
      var kept := Unrecorded(front, slots);
      forall i | 0 <= i < |kept| ensures kept[i] != last { UnrecordedIff(front, slots, kept[i]); }
    }
  }

  /** The walk re-collects every confirmed slot; the worker emits those without a record. */
  method EmitConfirmed(confirmed: seq<Confirmation>, transactions: seq<TxRecord>, target: nat)
    returns (messages: seq<Confirmation>)
    requires forall c :: c in confirmed ==> c.slot < target
    ensures forall c :: c in messages <==> c in confirmed && c.slot !in RecordedSlots(transactions)
    ensures Distinct(confirmed) ==> Distinct(messages)
    ensures |messages| <= |confirmed|
  {
    var pending := PendingSlots(transactions, target);
    ghost var slots := set slot | slot in pending;
    messages := [];
    for k := 0 to |confirmed|
      invariant messages == Unrecorded(confirmed[..k], slots) && |messages| <= k
    {
      assert confirmed[..k + 1][..k] == confirmed[..k];
      if confirmed[k].slot !in pending { continue; }
      messages := messages + [confirmed[k]];
    }
    assert confirmed[..|confirmed|] == confirmed;
    forall c: Confirmation
      ensures c in messages <==> c in confirmed && c.slot !in RecordedSlots(transactions)
    {
      UnrecordedIff(confirmed, slots, c);
    }
    if Distinct(confirmed) { UnrecordedDistinct(confirmed, slots); }
  }

  function Upsert(rows: seq<string>, job: string): seq<string> { if job in rows then rows else rows + [job] }

  datatype JobState = QUEUED | RUNNING | COMPLETED | STOPPED

  /** A new row starts queued, unless the job's on-chain state could be read and says more. */
  function FirstState(onchain: Option<JobState>): JobState { if onchain.Some? then onchain.value else QUEUED }

  /** The stored task, the jobs collection, with each job's state, and the events collection. */
  class ListStore {
    var records: seq<TxRecord>
    var rows: seq<string>
    var states: map<string, JobState>
    var events: seq<string>

    constructor ()
      ensures records == [] && rows == [] && states == map[] && events == []
    {
      records, rows, states, events := [], [], map[], [];
    }

    /**
     * The row is upserted by job. Only the call that inserted it re-reads the
     * job's on-chain state (`onchain`, absent if that failed) and tells of it.
     */
    method OnListConfirmed(job: string, onchain: Option<JobState>)
      modifies this
      ensures records == old(records) && rows == if job in old(rows) then old(rows) else old(rows) + [job]
      ensures job in old(rows) ==> states == old(states) && events == old(events)
      ensures job !in old(rows) ==>
                states == old(states)[job := if onchain.Some? then onchain.value else QUEUED] && events == old(events) + [job]
    {
      var upserted := job !in rows;
      rows := Upsert(rows, job);
      if !upserted { return; }
      states := states[job := QUEUED];
      if onchain.Some? && onchain.value != QUEUED && states[job] !in {COMPLETED, STOPPED} {
        states := states[job := onchain.value];
      }
      events := events + [job];
    }

    /** A worker's CONFIRMED message: the job first, the unit's record after. */
    method TakeConfirmed(message: Confirmation, onchain: Option<JobState>)
      modifies this
      ensures records == old(records) + [RecordOf(message)] && rows == Upsert(old(rows), message.job)
      ensures message.job in old(rows) ==> states == old(states) && events == old(events)
      ensures message.job !in old(rows) ==>
                states == old(states)[message.job := FirstState(onchain)] && events == old(events) + [message.job]
    {
      OnListConfirmed(message.job, onchain);
      records := records + [RecordOf(message)];
    }

    /**
     * A whole stream: one record a message, in order; every job has its row; and
     * the same jobs are added to the rows and to the events.
     */
    method RunWorkerMessages(messages: seq<Confirmation>, onchain: nat -> Option<JobState>) returns (ghost added: seq<string>)
      requires Distinct(rows)
      modifies this
      ensures |records| == |old(records)| + |messages| && records[..|old(records)|] == old(records)
      ensures forall k :: 0 <= k < |messages| ==> messages[k].job in rows
      ensures forall k :: 0 <= k < |messages| ==>
                var message, record := messages[k], records[|old(records)| + k];
                && record.unit == message.slot && record.status == LANDED && record.jobs == [message.job]
                && record.signature == message.tx && record.blob.None? && record.nodes == []
      ensures Distinct(rows) && rows == old(rows) + added && events == old(events) + added
    {
      added := [];
      for k := 0 to |messages|
        invariant |records| == |old(records)| + k && records[..|old(records)|] == old(records)
        invariant forall j :: 0 <= j < k ==> records[|old(records)| + j] == RecordOf(messages[j]) && messages[j].job in rows
        invariant Distinct(rows) && rows == old(rows) + added && events == old(events) + added
      {
        if messages[k].job !in rows { added := added + [messages[k].job]; }
        TakeConfirmed(messages[k], onchain(k));
      }
    }
  }
}

/** That LIST over any number of sequential attempts, a crash possible between any two writes. */
module SlotSafety {
  import opened Prelude
  import opened Records
  import opened Reconciliation
  import opened Slots

  /** How far a CONFIRMED message got: emitted, its row upserted, its event told, its record pushed. */
  datatype Phase = Emitted | Rowed(inserted: bool) | Told | Recorded

  /** An attempt, once its walk answered: whether it was `ok`, and how far each message got. */
  datatype Attempt = Waiting | Walked(ok: bool, phases: map<nat, Phase>)

  /** `answered` is every confirmation the walks heard so far, by slot: history, stored nowhere. */
  datatype State = State(
    target: nat, answered: map<nat, string>, records: seq<TxRecord>, rows: seq<string>, events: seq<string>,
    attempt: Option<Attempt>, completed: bool)

  datatype Event =
    | Begin
    | Walk(confirmed: map<nat, string>, ok: bool)
    | UpsertRow(slot: nat)
    | Tell(slot: nat)
    | PushRecord(slot: nat, tx: string)
    | Complete
    | Stop

  predicate AtPhase(s: State, slot: nat) {
    && s.attempt.Some? && s.attempt.value.Walked? && slot in s.attempt.value.phases
    && slot < s.target && slot in s.answered
  }

  /** Confirmations of slots below the target, all of them if the walk ended ok. */
  ghost predicate Covers(target: nat, confirmed: map<nat, string>, ok: bool) {
    && (forall slot :: slot in confirmed ==> slot < target)
    && (ok ==> forall slot: nat :: slot < target ==> slot in confirmed)
  }

  /** A slot confirmed before is confirmed with the same job. */
  ghost predicate Agree(answered: map<nat, string>, confirmed: map<nat, string>) {
    forall slot :: slot in answered && slot in confirmed ==> answered[slot] == confirmed[slot]
  }

  /** A job is listed in one slot. */
  ghost predicate OneSlotAJob(answered: map<nat, string>) {
    forall i, j :: i in answered && j in answered && answered[i] == answered[j] ==> i == j
  }

  ghost predicate Enabled(s: State, e: Event) {
    match e
    case Begin => s.attempt.None?
    case Walk(confirmed, ok) =>
      && s.attempt == Some(Waiting) && ConfirmedJobs(s.records) < s.target
      && Covers(s.target, confirmed, ok) && Agree(s.answered, confirmed) && OneSlotAJob(s.answered + confirmed)
    case UpsertRow(slot) => AtPhase(s, slot) && s.attempt.value.phases[slot] == Emitted
    case Tell(slot) => AtPhase(s, slot) && s.attempt.value.phases[slot] == Rowed(true)
    case PushRecord(slot, _) => AtPhase(s, slot) && s.attempt.value.phases[slot] in {Rowed(false), Told}
    case Complete =>
      || (s.attempt == Some(Waiting) && ConfirmedJobs(s.records) >= s.target)
      || (s.attempt.Some? && s.attempt.value.Walked? && s.attempt.value.ok
          && forall slot :: slot in s.attempt.value.phases ==> s.attempt.value.phases[slot] == Recorded)
    case Stop => s.attempt.Some?
  }

  function At(s: State, slot: nat, phase: Phase): Option<Attempt>
    requires AtPhase(s, slot)
  {
    Some(s.attempt.value.(phases := s.attempt.value.phases[slot := phase]))
  }

  ghost function Next(s: State, e: Event): State
    requires Enabled(s, e)
  {
    match e
    case Begin => s.(attempt := Some(Waiting))
    case Walk(confirmed, ok) =>
      s.(answered := s.answered + confirmed,
         attempt := Some(Walked(ok, map slot | slot in confirmed && slot !in RecordedSlots(s.records) :: Emitted)))
    case UpsertRow(slot) =>
      s.(rows := Upsert(s.rows, s.answered[slot]), attempt := At(s, slot, Rowed(s.answered[slot] !in s.rows)))
    case Tell(slot) => s.(events := s.events + [s.answered[slot]], attempt := At(s, slot, Told))
    case PushRecord(slot, tx) =>
      s.(records := s.records + [RecordOf(Confirmation(slot, s.answered[slot], tx))], attempt := At(s, slot, Recorded))
    case Complete => s.(completed := true, attempt := None)
    case Stop => s.(attempt := None)
  }

  function Initial(target: nat): State { State(target, map[], [], [], [], None, false) }

  ghost predicate IsRun(s: State, events: seq<Event>)
    decreases |events|
  {
    events != [] ==> Enabled(s, events[0]) && IsRun(Next(s, events[0]), events[1..])
  }

  ghost function Final(s: State, events: seq<Event>): State
    requires IsRun(s, events)
    decreases |events|
  {
    if events == [] then s else Final(Next(s, events[0]), events[1..])
  }

  ghost predicate DistinctSlots(records: seq<TxRecord>) {
    forall i, j :: 0 <= i < j < |records| ==> records[i].unit != records[j].unit
  }

  ghost predicate RecordOk(s: State, record: TxRecord) {
    && record.status == LANDED && record.unit < s.target && record.unit in s.answered
    && record.jobs == [s.answered[record.unit]] && s.answered[record.unit] in s.rows
  }

  ghost predicate AllRecorded(s: State) {
    forall slot :: 0 <= slot < s.target ==> slot in RecordedSlots(s.records)
  }

  ghost predicate PhaseOk(s: State, slot: nat, phase: Phase) {
    && slot < s.target && slot in s.answered
    && (phase == Recorded <==> slot in RecordedSlots(s.records))
    && (phase != Emitted ==> s.answered[slot] in s.rows)
    && (phase == Rowed(true) ==> s.answered[slot] !in s.events)
  }

  ghost predicate AttemptOk(s: State) {
    s.attempt.Some? && s.attempt.value.Walked? ==>
      && (forall slot :: slot in s.attempt.value.phases ==> PhaseOk(s, slot, s.attempt.value.phases[slot]))
      && (s.attempt.value.ok ==> forall slot :: 0 <= slot < s.target ==>
            slot in RecordedSlots(s.records) || slot in s.attempt.value.phases)
  }

  ghost predicate Inv(s: State) {
    && OneSlotAJob(s.answered) && Distinct(s.rows) && Distinct(s.events)
    && (forall job :: job in s.events ==> job in s.rows)
    && DistinctSlots(s.records) && (forall record :: record in s.records ==> RecordOk(s, record))
    && AttemptOk(s) && (s.completed ==> AllRecorded(s))
  }

  lemma {:induction false} OneJobARecord(s: State, records: seq<TxRecord>)
    requires forall record :: record in records ==> RecordOk(s, record)
    ensures ConfirmedJobs(records) == |records|
  {
    if records != [] {
      OneJobARecord(s, records[..|records| - 1]);
      assert RecordOk(s, records[|records| - 1]);
    }
  }

  lemma {:induction false} SlotsCount(records: seq<TxRecord>)
    requires DistinctSlots(records) && forall record :: record in records ==> record.status == LANDED
    ensures |RecordedSlots(records)| == |records|
  {
    if records != [] {
      var front, last := records[..|records| - 1], records[|records| - 1];
      SlotsCount(front);
      assert records == front + [last];
      assert RecordedSlots(records) == RecordedSlots(front) + {last.unit} && last.unit !in RecordedSlots(front);
    }
  }

  function Below(n: nat): (slots: set<nat>)
    ensures |slots| == n && forall slot: nat :: slot in slots <==> slot < n
  {
    if n == 0 then {} else Below(n - 1) + {n - 1}
  }

  lemma SubsetOfSameSize(a: set<nat>, b: set<nat>)
    requires a <= b && |a| >= |b|
    ensures a == b
  {
    assert |b - a| == |b| - |a|;
  }

  /** As many records as slots, and no slot twice: no slot is missing. */
  lemma FullIsComplete(s: State)
    requires Inv(s) && ConfirmedJobs(s.records) >= s.target
    ensures AllRecorded(s)
  {
    OneJobARecord(s, s.records);
    SlotsCount(s.records);
    SubsetOfSameSize(RecordedSlots(s.records), Below(s.target));
  }

  lemma PushKeeps(s: State, slot: nat, tx: string)
    requires Inv(s) && Enabled(s, PushRecord(slot, tx))
    ensures Inv(Next(s, PushRecord(slot, tx)))
  {
    var t := Next(s, PushRecord(slot, tx));
    var record := RecordOf(Confirmation(slot, s.answered[slot], tx));
    assert PhaseOk(s, slot, s.attempt.value.phases[slot]);
    assert RecordedSlots(t.records) == RecordedSlots(s.records) + {slot} by {
      assert record in t.records;
    }
    forall i | 0 <= i < |s.records| ensures s.records[i].unit != slot {
      assert RecordOk(s, s.records[i]);
    }
    forall r | r in t.records ensures RecordOk(t, r) {
      if r in s.records { assert RecordOk(s, r); }
    }
    forall k | k in t.attempt.value.phases ensures PhaseOk(t, k, t.attempt.value.phases[k]) {
      assert PhaseOk(s, k, s.attempt.value.phases[k]);
    }
  }

  lemma TellKeeps(s: State, slot: nat)
    requires Inv(s) && Enabled(s, Tell(slot))
    ensures Inv(Next(s, Tell(slot)))
  {
    var t := Next(s, Tell(slot));
    assert PhaseOk(s, slot, Rowed(true));
    forall k | k in t.attempt.value.phases ensures PhaseOk(t, k, t.attempt.value.phases[k]) {
      assert PhaseOk(s, k, s.attempt.value.phases[k]);
    }
    forall r | r in t.records ensures RecordOk(t, r) { assert RecordOk(s, r); }
  }

  lemma UpsertKeeps(s: State, slot: nat)
    requires Inv(s) && Enabled(s, UpsertRow(slot))
    ensures Inv(Next(s, UpsertRow(slot)))
  {
    var t := Next(s, UpsertRow(slot));
    assert s.answered[slot] in t.rows && forall job :: job in s.rows ==> job in t.rows;
    assert PhaseOk(s, slot, Emitted);
    forall k | k in t.attempt.value.phases ensures PhaseOk(t, k, t.attempt.value.phases[k]) {
      assert PhaseOk(s, k, s.attempt.value.phases[k]);
    }
    forall r | r in t.records ensures RecordOk(t, r) { assert RecordOk(s, r); }
  }

  lemma WalkKeeps(s: State, confirmed: map<nat, string>, ok: bool)
    requires Inv(s) && Enabled(s, Walk(confirmed, ok))
    ensures Inv(Next(s, Walk(confirmed, ok)))
  {
    var t := Next(s, Walk(confirmed, ok));
    forall r | r in t.records ensures RecordOk(t, r) { assert RecordOk(s, r); }
  }

  lemma StepKeeps(s: State, e: Event)
    requires Inv(s) && Enabled(s, e)
    ensures Inv(Next(s, e))
  {
    var t := Next(s, e);
    if e.Walk? { WalkKeeps(s, e.confirmed, e.ok); }
    else if e.PushRecord? { PushKeeps(s, e.slot, e.tx); }
    else if e.Tell? { TellKeeps(s, e.slot); }
    else if e.UpsertRow? { UpsertKeeps(s, e.slot); }
    else {
      forall r | r in t.records ensures RecordOk(t, r) { assert RecordOk(s, r); }
      if e.Complete? {
        if ConfirmedJobs(s.records) >= s.target { FullIsComplete(s); }
        else {
          forall slot | 0 <= slot < s.target ensures slot in RecordedSlots(t.records) {
            if slot in s.attempt.value.phases { assert PhaseOk(s, slot, Recorded); }
          }
        }
      }
    }
  }

  lemma {:induction false} RunKeeps(s: State, events: seq<Event>)
    requires Inv(s) && IsRun(s, events)
    ensures Inv(Final(s, events)) && Final(s, events).target == s.target
    decreases |events|
  {
    if events != [] {
      StepKeeps(s, events[0]);
      RunKeeps(Next(s, events[0]), events[1..]);
    }
  }

  /**
   * Across any crashes and attempts: a slot has at most one record, and it holds
   * the slot's own job; a recorded slot's job has its row; no job has two rows
   * or two events; and a completed run recorded every slot.
   */
  lemma EverySlotOnce(target: nat, events: seq<Event>)
    requires IsRun(Initial(target), events)
    ensures var s := Final(Initial(target), events);
      && (forall i, j :: 0 <= i < j < |s.records| ==> s.records[i].unit != s.records[j].unit)
      && (forall record :: record in s.records ==>
            && record.unit < target && record.unit in s.answered
            && record.jobs == [s.answered[record.unit]] && s.answered[record.unit] in s.rows)
      && Distinct(s.rows) && Distinct(s.events)
      && (s.completed ==> forall slot :: 0 <= slot < target ==> slot in RecordedSlots(s.records))
  {
    RunKeeps(Initial(target), events);
    var s := Final(Initial(target), events);
    forall record | record in s.records
      ensures record.unit < target && record.unit in s.answered
      ensures record.jobs == [s.answered[record.unit]] && s.answered[record.unit] in s.rows
    {
      assert RecordOk(s, record);
    }
  }
}
