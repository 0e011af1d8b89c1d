/**
 * The transaction ledger of one task: records persisted before they are
 * broadcast, recovered on the next attempt, and topped up to a frozen target.
 */
module Records {
  import opened Prelude
  import opened Chain
  import opened Tracking

  datatype RecordStatus = SIGNED | SENT | LANDED

  /** One persisted transaction; an empty signature is one not known, a blob the signed bytes still held. */
  datatype TxRecord = TxRecord(
    unit: nat, signature: Signature, lastValidBlockHeight: nat, status: RecordStatus,
    blob: Option<string>, jobs: seq<string>, nodes: seq<string>)

  datatype UnitOutcome =
    | Confirmed(signature: Signature, jobCount: Option<nat>)
    | Expired
    | Errored
    | Aborted
    | Retry(retryAfterMs: Option<nat>)

  datatype RecoveryAction = Settled(outcome: UnitOutcome) | Resend

  /** What a resumed record needs: status before expiry, and a resend only of bytes still in their window. */
  function Recovery(record: TxRecord, height: nat, statuses: map<Signature, SignatureStatus>): RecoveryAction {
    var reading := ClassifySignatureStatus(Lookup(statuses, record.signature));
    if record.signature != "" && reading.confirmed then Settled(Confirmed(record.signature, None))
    else if record.signature != "" && reading.error then Settled(Errored)
    else if record.blob.None? || height > record.lastValidBlockHeight then Settled(Expired)
    else Resend
  }

  /** The chain was seen to hold the record's transaction, committed and without an error. */
  predicate SeenLanded(record: TxRecord, statuses: map<Signature, SignatureStatus>) {
    record.signature != "" && record.signature in statuses
    && statuses[record.signature].Seen? && !statuses[record.signature].err && !statuses[record.signature].commitment.AtProcessed?
  }

  predicate SeenReverted(record: TxRecord, statuses: map<Signature, SignatureStatus>) {
    record.signature != "" && record.signature in statuses && statuses[record.signature].Seen? && statuses[record.signature].err
  }

  ghost predicate DistinctUnits(records: seq<TxRecord>) {
    forall i, j :: 0 <= i < j < |records| ==> records[i].unit != records[j].unit
  }

  method RecoverUnits(records: seq<TxRecord>, height: nat, statuses: map<Signature, SignatureStatus>)
    returns (actions: map<nat, RecoveryAction>)
    ensures actions.Keys == set r | r in records :: r.unit
    ensures DistinctUnits(records) ==>
              forall k :: 0 <= k < |records| ==> actions[records[k].unit] == Recovery(records[k], height, statuses)
    ensures DistinctUnits(records) ==>
              forall k :: 0 <= k < |records| ==>
                var record, action := records[k], actions[records[k].unit];
                var status := if record.signature != "" && record.signature in statuses then statuses[record.signature] else NotFound;
                && (action == Settled(Confirmed(record.signature, None)) <==>
                      status.Seen? && !status.err && status.commitment in {AtConfirmed, AtFinalized})
                && (action == Settled(Errored) <==> status.Seen? && status.err)
                && (action == Resend <==>
                      (status.NotFound? || (!status.err && status.commitment == AtProcessed))
                      && record.blob.Some? && height <= record.lastValidBlockHeight)
                && (action.Settled? ==> action.outcome in {Confirmed(record.signature, None), Errored, Expired})
  {
    actions := map[];
    for k := 0 to |records|
      invariant actions.Keys == set r | r in records[..k] :: r.unit
      invariant DistinctUnits(records) ==>
        forall i :: 0 <= i < k ==> actions[records[i].unit] == Recovery(records[i], height, statuses)
    {
      var record := records[k];
      assert records[..k + 1] == records[..k] + [record];
      if record.signature != "" {
        var reading := ClassifySignatureStatus(Lookup(statuses, record.signature));
        if reading.confirmed {
          actions := actions[record.unit := Settled(Confirmed(record.signature, None))];
          continue;
        }
        if reading.error {
          actions := actions[record.unit := Settled(Errored)];
          continue;
        }
      }
      if record.blob.None? || height > record.lastValidBlockHeight {
        actions := actions[record.unit := Settled(Expired)];
        continue;
      }
      actions := actions[record.unit := Resend];
    }
    assert records[..|records|] == records;
  }

  /**
   * Recovery reads height and statuses in parallel, so the statuses may come
   * from an earlier chain. An expiry it then declares of a held blob is final
   * exactly when that chain was past the window already.
   */
  lemma RecoveredExpiryTrustedIff(bounds: map<Signature, nat>, statusesAt: Chain, height: nat, record: TxRecord,
                                  status: SignatureStatus)
    requires record.signature in bounds && bounds[record.signature] == record.lastValidBlockHeight
    requires record.signature != "" && record.blob.Some? && Reports(status, statusesAt, record.signature)
    requires Recovery(record, height, map[record.signature := status]) == Settled(Expired)
    ensures NeverLands(bounds, statusesAt, record.signature) <==> record.lastValidBlockHeight < statusesAt.height
  {
    DeadIffPastWindow(bounds, statusesAt, record.signature);
  }

  /** Not seen at its last block, landed in it, and one block later declared expired. */
  lemma ParallelReadsExpireTheLanded()
    ensures var record := TxRecord(0, "sig", 100, SENT, Some("bytes"), ["job"], ["node"]);
      var statusesAt := Chain(100, map[]);
      var events := [Land("sig", true), Advance];
      && IsFuture(map["sig" := 100], statusesAt, events)
      && Recovery(record, Evolve(statusesAt, events).height, map["sig" := NotFound]) == Settled(Expired)
      && "sig" in Evolve(statusesAt, events).landings
  {
    var c0 := Chain(100, map[]);
    var c1 := Happen(c0, Land("sig", true));
    var c2 := Happen(c1, Advance);
    var events := [Land("sig", true), Advance];
    assert events[1..] == [Advance] && [Advance][1..] == [];
    assert IsFuture(map["sig" := 100], c1, [Advance]);
    assert Evolve(c1, [Advance]) == Evolve(c2, []) == c2;
    assert Evolve(c0, events) == Evolve(c1, events[1..]);
  }

  /** What the chain and the RPC do with one send; `aborted` says the lease was killed before it. */
  datatype Net = Net(aborted: bool, simulation: Simulation, broadcast: Broadcast, tracked: Outcome)
  datatype Simulation = Clean | AlreadyProcessed | DidNotRun | BlockhashNotFound | Fails
  datatype Broadcast = Accepted | TransientError | Rejected

  /**
   * Broadcast one signed blob and wait for its fate. `sent` says the bytes left:
   * only bytes that are held, under a live lease, and not known to fail.
   */
  method SendUnit(record: TxRecord, net: Net) returns (outcome: UnitOutcome, sent: bool)
    ensures outcome == SendOutcome(record, net)
    ensures sent <==> record.blob.Some? && !net.aborted && net.simulation in {Clean, AlreadyProcessed, DidNotRun}
    ensures outcome == Confirmed(record.signature, None) <==> sent && net.broadcast == Accepted && net.tracked == CONFIRMED
    ensures outcome == Aborted <==> net.aborted || (sent && net.broadcast == Accepted && net.tracked == ABORTED)
    ensures outcome == Errored <==>
              || (!net.aborted && record.blob.Some? && net.simulation == Fails)
              || (sent && (net.broadcast == Rejected || (net.broadcast == Accepted && net.tracked == ERROR)))
    ensures outcome == Expired <==>
              || (!net.aborted && (record.blob.None? || net.simulation == BlockhashNotFound))
              || (sent && (net.broadcast == TransientError || (net.broadcast == Accepted && net.tracked == EXPIRED)))
    ensures outcome in {Confirmed(record.signature, None), Aborted, Errored, Expired}
  {
    sent := false;
    if net.aborted { return Aborted, sent; }
    if record.blob.None? { return Expired, sent; }
    if net.simulation.BlockhashNotFound? { return Expired, sent; }
    if net.simulation.Fails? { return Errored, sent; }
    sent := true;
    if net.broadcast.TransientError? { return Expired, sent; }
    if net.broadcast.Rejected? { return Errored, sent; }
    match net.tracked {
      case CONFIRMED => outcome := Confirmed(record.signature, None);
      case EXPIRED => outcome := Expired;
      case ABORTED => outcome := Aborted;
      case ERROR => outcome := Errored;
    }
  }

  /** The bytes leave, if held: the lease was live and the simulation did not tell against them. */
  predicate Leaves(net: Net) { !net.aborted && net.simulation in {Clean, AlreadyProcessed, DidNotRun} }

  predicate Delivered(net: Net) { Leaves(net) && net.broadcast == Accepted && net.tracked == CONFIRMED }

  /** A simulation, a broadcast or the chain itself turned a held transaction down. */
  predicate Refused(net: Net) {
    || (!net.aborted && net.simulation == Fails)
    || (Leaves(net) && (net.broadcast == Rejected || (net.broadcast == Accepted && net.tracked == ERROR)))
  }

  /** The lease was killed before the send or during the wait. */
  predicate CutShort(net: Net) { net.aborted || (Leaves(net) && net.broadcast == Accepted && net.tracked == ABORTED) }

  function SendOutcome(record: TxRecord, net: Net): UnitOutcome {
    if net.aborted then Aborted
    else if record.blob.None? || net.simulation.BlockhashNotFound? then Expired
    else if net.simulation.Fails? || net.broadcast.Rejected? then Errored
    else if net.broadcast.TransientError? then Expired
    else match net.tracked
      case CONFIRMED => Confirmed(record.signature, None)
      case EXPIRED => Expired
      case ABORTED => Aborted
      case ERROR => Errored
  }
}

module Reconciliation {
  import opened Prelude
  import opened Chain
  import opened Tracking
  import opened Records

  /** What a unit's outcome does to its stored record. */
  function After(record: TxRecord, outcome: UnitOutcome): TxRecord {
    match outcome
    case Confirmed(signature, _) => record.(status := LANDED, signature := signature, blob := None)
    case Expired => record.(status := SENT, blob := None)
    case Errored => record.(status := SENT, blob := None)
    case Aborted => record
    case Retry(_) => record
  }

  /** The jobs of the records the ledger holds as confirmed. */
  function ConfirmedJobs(records: seq<TxRecord>): nat {
    if records == [] then 0
    else
      var last := records[|records| - 1];
      ConfirmedJobs(records[..|records| - 1]) + (if last.status == LANDED then |last.jobs| else 0)
  }

  /** Records are numbered by position, so units are distinct and an update by unit meets one record. */
  ghost predicate Indexed(records: seq<TxRecord>) {
    forall i :: 0 <= i < |records| ==> records[i].unit == i
  }

  /** Nothing is left to broadcast: each record has its verdict and its blob is cleared. */
  ghost predicate AllSettled(records: seq<TxRecord>) {
    forall i :: 0 <= i < |records| ==> IsSettled(records[i])
  }

  /** Some record still holds its signed bytes: the task may not be dropped. */
  predicate HoldsBytes(records: seq<TxRecord>) { exists r :: r in records && r.blob.Some? }

  predicate IsSettled(record: TxRecord) { record.blob.None? && record.status != SIGNED }

  /** A record the ledger stored as confirmed holds no blob, nor does one given up on. */
  ghost predicate BlobsHeld(records: seq<TxRecord>) {
    forall i :: 0 <= i < |records| && records[i].status == LANDED ==> records[i].blob.None?
  }

  datatype OrchestrateResult = OrchestrateResult(confirmed: nat, errored: nat, aborted: bool, retry: bool, retryAfterMs: Option<nat>)

  /** Jobs, not units: a bulked unit confirms several at once. */
  function JobsConfirmed(outcomes: seq<UnitOutcome>): nat {
    if outcomes == [] then 0
    else
      var last := outcomes[|outcomes| - 1];
      JobsConfirmed(outcomes[..|outcomes| - 1])
      + (if last.Confirmed? then (if last.jobCount.Some? then last.jobCount.value else 1) else 0)
  }

  lemma JobsConfirmedAppend(outcomes: seq<UnitOutcome>, outcome: UnitOutcome)
    ensures JobsConfirmed(outcomes + [outcome]) == JobsConfirmed(outcomes) + JobsConfirmed([outcome])
  {
    assert (outcomes + [outcome])[..|outcomes|] == outcomes;
    assert [outcome][..0] == [];
  }

  predicate AnyAborted(outcomes: seq<UnitOutcome>) { exists o :: o in outcomes && o.Aborted? }

  predicate AnyRetry(outcomes: seq<UnitOutcome>) { exists o :: o in outcomes && o.Retry? }

  lemma OneMore(outcomes: seq<UnitOutcome>, outcome: UnitOutcome)
    ensures AnyAborted(outcomes + [outcome]) <==> AnyAborted(outcomes) || outcome.Aborted?
    ensures AnyRetry(outcomes + [outcome]) <==> AnyRetry(outcomes) || outcome.Retry?
  {
    assert forall o :: o in outcomes + [outcome] <==> o in outcomes || o == outcome;
  }

  method Tally(outcomes: seq<UnitOutcome>, aborted: bool) returns (result: OrchestrateResult)
    ensures result.confirmed == JobsConfirmed(outcomes)
    ensures result.aborted <==> aborted || AnyAborted(outcomes)
    ensures result.retry <==> AnyRetry(outcomes)
    ensures result.errored == multiset(outcomes)[Errored]
    ensures forall o, ms: nat :: o in outcomes && o == Retry(Some(ms)) ==> result.retryAfterMs.Some? && ms <= result.retryAfterMs.value
    ensures result.retryAfterMs.Some? ==> Retry(result.retryAfterMs) in outcomes
  {
    var confirmed, errored, retry := 0, 0, false;
    var after: Option<nat>, stop := None, aborted;
    for k := 0 to |outcomes|
      invariant confirmed == JobsConfirmed(outcomes[..k])
      invariant errored == multiset(outcomes[..k])[Errored]
      invariant stop <==> aborted || AnyAborted(outcomes[..k])
      invariant retry <==> AnyRetry(outcomes[..k])
      invariant forall o, ms: nat :: o in outcomes[..k] && o == Retry(Some(ms)) ==> after.Some? && ms <= after.value
      invariant after.Some? ==> Retry(after) in outcomes[..k]
    {
      var outcome := outcomes[k];
      assert outcomes[..k + 1] == outcomes[..k] + [outcome];
      JobsConfirmedAppend(outcomes[..k], outcome);
      OneMore(outcomes[..k], outcome);
      match outcome {
        case Confirmed(_, jobCount) => confirmed := confirmed + if jobCount.Some? then jobCount.value else 1;
        case Errored => errored := errored + 1;
        case Aborted => stop := true;
        case Retry(ms) =>
          retry := true;
          if ms.Some? && (after.None? || after.value < ms.value) { after := ms; }
        case Expired =>
      }
    }
    assert outcomes[..|outcomes|] == outcomes;
    result := OrchestrateResult(confirmed, errored, stop, retry, after);
  }

  lemma {:induction false} ConfirmedJobsMark(records: seq<TxRecord>, unit: nat, record: TxRecord)
    requires unit < |records| && record.jobs == records[unit].jobs && records[unit].status != LANDED
    ensures ConfirmedJobs(records[unit := record]) == ConfirmedJobs(records) + if record.status == LANDED then |record.jobs| else 0
  {
    var marked, front := records[unit := record], records[..|records| - 1];
    if unit == |records| - 1 {
      assert marked[..|records| - 1] == front;
    } else {
      assert marked[..|records| - 1] == front[unit := record];
      ConfirmedJobsMark(front, unit, record);
    }
  }

  lemma ConfirmedJobsAppend(records: seq<TxRecord>, record: TxRecord)
    ensures ConfirmedJobs(records + [record]) == ConfirmedJobs(records) + if record.status == LANDED then |record.jobs| else 0
  {
    assert (records + [record])[..|records|] == records;
  }

  /** Freshly signed transactions, numbered from `start`, their bytes held. */
  ghost predicate Fresh(signed: seq<TxRecord>, start: nat) {
    forall k :: 0 <= k < |signed| ==>
      signed[k].unit == start + k && signed[k].status == SIGNED && signed[k].blob.Some?
  }

  /**
   * One attempt's environment: the reads recovery makes, the fate of each
   * unit's send, when the lease was killed, and how many of the worker's
   * messages were handled by then.
   */
  datatype Script = Script(height: nat, statuses: map<Signature, SignatureStatus>, nets: nat -> Net,
                           abortedAtStart: bool, abortedAtResumed: bool, abortedAtEnd: bool, handled: nat)
  {
    ghost predicate Valid() { (abortedAtStart ==> abortedAtResumed) && (abortedAtResumed ==> abortedAtEnd) }
  }

  /** What recovery makes of a record: a confirmed one is kept, the rest get their verdict or are sent again. */
  function ResumeOutcome(record: TxRecord, script: Script): UnitOutcome {
    match Recovery(record, script.height, script.statuses)
    case Settled(outcome) => outcome
    case Resend => SendOutcome(record, script.nets(record.unit))
  }

  /** Recovery sends a record's bytes again: held, in their window, and their transaction not seen on chain. */
  predicate Resends(record: TxRecord, script: Script) {
    && !SeenLanded(record, script.statuses) && !SeenReverted(record, script.statuses)
    && record.blob.Some? && script.height <= record.lastValidBlockHeight
  }

  /**
   * What becomes of a record resumed: confirmed where the statuses or its own new
   * send say so, an error where they say that, cut short only in a new send, and
   * given up on otherwise.
   */
  lemma ResumeOutcomeIs(record: TxRecord, script: Script)
    ensures var outcome, net := ResumeOutcome(record, script), script.nets(record.unit);
      && (outcome == Confirmed(record.signature, None) <==>
            SeenLanded(record, script.statuses) || (Resends(record, script) && Delivered(net)))
      && (outcome == Errored <==> SeenReverted(record, script.statuses) || (Resends(record, script) && Refused(net)))
      && (outcome == Aborted <==> Resends(record, script) && CutShort(net))
      && outcome in {Confirmed(record.signature, None), Errored, Aborted, Expired}
  {
  }

  /** And of one just signed. */
  lemma SendOutcomeIs(record: TxRecord, net: Net)
    requires record.blob.Some?
    ensures var outcome := SendOutcome(record, net);
      && (outcome == Confirmed(record.signature, None) <==> Delivered(net))
      && (outcome == Errored <==> Refused(net)) && (outcome == Aborted <==> CutShort(net))
      && outcome in {Confirmed(record.signature, None), Errored, Aborted, Expired}
  {
  }

  lemma SentLands(signed: seq<TxRecord>, script: Script)
    requires forall k :: 0 <= k < |signed| ==> signed[k].blob.Some? && signed[k].status != LANDED
    ensures forall k :: 0 <= k < |signed| ==>
              var net := script.nets(signed[k].unit);
              (After(signed[k], SendOutcome(signed[k], net)).status == LANDED <==> Delivered(net))
  {
    forall k | 0 <= k < |signed|
      ensures var net := script.nets(signed[k].unit);
        After(signed[k], SendOutcome(signed[k], net)).status == LANDED <==> Delivered(net)
    {
      SendOutcomeIs(signed[k], script.nets(signed[k].unit));
    }
  }

  /** How many open records are resumed to an error, and how many of the first sends end in one. */
  function ResumeErrors(records: seq<TxRecord>, script: Script): nat {
    if records == [] then 0
    else
      var last := records[|records| - 1];
      ResumeErrors(records[..|records| - 1], script)
      + (if last.status != LANDED && (SeenReverted(last, script.statuses)
             || (Resends(last, script) && Refused(script.nets(last.unit)))) then 1 else 0)
  }

  function SendErrors(signed: seq<TxRecord>, script: Script): nat {
    if signed == [] then 0
    else
      SendErrors(signed[..|signed| - 1], script) + (if Refused(script.nets(signed[|signed| - 1].unit)) then 1 else 0)
  }

  lemma ResumeErrorsMore(records: seq<TxRecord>, record: TxRecord, script: Script)
    ensures ResumeErrors(records + [record], script)
         == ResumeErrors(records, script) + if record.status != LANDED && ResumeOutcome(record, script).Errored? then 1 else 0
  {
    ResumeOutcomeIs(record, script);
    assert (records + [record])[..|records|] == records;
  }

  lemma {:induction false} OpenErrors(records: seq<TxRecord>, script: Script)
    ensures ResumeErrors(Unconfirmed(records), script) == ResumeErrors(records, script)
  {
    if records != [] {
      var front, last := records[..|records| - 1], records[|records| - 1];
      OpenErrors(front, script);
      if last.status == LANDED { assert Unconfirmed(records) == Unconfirmed(front); }
      else { ResumeErrorsMore(Unconfirmed(front), last, script); ResumeOutcomeIs(last, script); }
    }
  }

  /** Some open record was being sent again when the lease was killed. */
  predicate ResumeCutShort(records: seq<TxRecord>, script: Script) {
    exists r :: r in records && r.status != LANDED && Resends(r, script) && CutShort(script.nets(r.unit))
  }

  function Resumed(record: TxRecord, script: Script): TxRecord {
    if record.status == LANDED then record else After(record, ResumeOutcome(record, script))
  }

  function Unconfirmed(records: seq<TxRecord>): seq<TxRecord> {
    if records == [] then []
    else
      var last := records[|records| - 1];
      Unconfirmed(records[..|records| - 1]) + (if last.status == LANDED then [] else [last])
  }

  lemma {:induction false} UnconfirmedIff(records: seq<TxRecord>, record: TxRecord)
    ensures record in Unconfirmed(records) <==> record in records && record.status != LANDED
  {
    if records != [] {
      var front, last := records[..|records| - 1], records[|records| - 1];
      UnconfirmedIff(front, record);
      assert records == front + [last];
    }
  }

  lemma {:induction false} UnconfirmedDistinct(records: seq<TxRecord>)
    requires Indexed(records)
    ensures DistinctUnits(Unconfirmed(records))
  {
    if records != [] {
      var front, last := records[..|records| - 1], records[|records| - 1];
      UnconfirmedDistinct(front);
      forall r | r in Unconfirmed(front) ensures r.unit < last.unit { UnconfirmedIff(front, r); }
    }
  }

  lemma {:induction false} NoneUnconfirmed(records: seq<TxRecord>)
    requires Unconfirmed(records) == []
    ensures forall i :: 0 <= i < |records| ==> records[i].status == LANDED
  {
    if records != [] { NoneUnconfirmed(records[..|records| - 1]); }
  }

  lemma {:induction false} JobsConfirmedConcat(xs: seq<UnitOutcome>, ys: seq<UnitOutcome>)
    ensures JobsConfirmed(xs + ys) == JobsConfirmed(xs) + JobsConfirmed(ys)
  {
    if ys == [] {
      assert xs + ys == xs;
    } else {
      assert (xs + ys)[..|xs + ys| - 1] == xs + ys[..|ys| - 1];
      JobsConfirmedConcat(xs, ys[..|ys| - 1]);
    }
  }

  /** Outcomes of confirmed records in front add their jobs, and nothing else. */
  lemma ConfirmedFirst(done: seq<UnitOutcome>, rest: seq<UnitOutcome>)
    requires !AnyRetry(done) && !AnyAborted(done) && Errored !in done
    ensures JobsConfirmed(done + rest) == JobsConfirmed(done) + JobsConfirmed(rest)
    ensures AnyAborted(done + rest) <==> AnyAborted(rest)
    ensures AnyRetry(done + rest) <==> AnyRetry(rest)
    ensures multiset(done + rest)[Errored] == multiset(rest)[Errored]
  {
    JobsConfirmedConcat(done, rest);
    assert forall o :: o in done + rest <==> o in done || o in rest;
  }

  /** Every record is resumed once in place, unless the lease was dead already, and the outcomes tell of all of them. */
  ghost predicate IsResumption(before: seq<TxRecord>, after: seq<TxRecord>, outcomes: seq<UnitOutcome>, script: Script) {
    && |after| == |before|
    && (forall i :: 0 <= i < |after| ==> after[i] == if script.abortedAtStart then before[i] else Resumed(before[i], script))
    && JobsConfirmed(outcomes) == ConfirmedJobs(after) && !AnyRetry(outcomes)
    && (!script.abortedAtStart && !AnyAborted(outcomes) ==> AllSettled(after))
    && multiset(outcomes)[Errored] == (if script.abortedAtStart then 0 else ResumeErrors(before, script))
    && (AnyAborted(outcomes) <==> !script.abortedAtStart && ResumeCutShort(before, script))
  }

  /** The outcomes of the records confirmed already. */
  ghost predicate IsDone(records: seq<TxRecord>, outcomes: seq<UnitOutcome>) {
    JobsConfirmed(outcomes) == ConfirmedJobs(records) && !AnyRetry(outcomes) && !AnyAborted(outcomes) && Errored !in outcomes
  }

  lemma NothingResumed(records: seq<TxRecord>, done: seq<UnitOutcome>, script: Script)
    requires IsDone(records, done) && script.abortedAtStart
    ensures IsResumption(records, records, done, script)
  {
  }

  lemma NothingOpen(records: seq<TxRecord>, done: seq<UnitOutcome>, script: Script)
    requires IsDone(records, done) && BlobsHeld(records) && Unconfirmed(records) == [] && !script.abortedAtStart
    ensures IsResumption(records, records, done, script)
  {
    NoneUnconfirmed(records);
    OpenErrors(records, script);
    OpenCutShort(records, script);
  }

  lemma AllResumed(before: seq<TxRecord>, after: seq<TxRecord>, done: seq<UnitOutcome>, recovered: seq<UnitOutcome>,
                   script: Script)
    requires IsDone(before, done) && !script.abortedAtStart && |after| == |before|
    requires forall i :: 0 <= i < |after| ==> after[i] == Resumed(before[i], script)
    requires JobsConfirmed(recovered) + ConfirmedJobs(before) == ConfirmedJobs(after) && !AnyRetry(recovered)
    requires !AnyAborted(recovered) ==> AllSettled(after)
    requires multiset(recovered)[Errored] == ResumeErrors(Unconfirmed(before), script)
    requires AnyAborted(recovered) <==> ResumeCutShort(Unconfirmed(before), script)
    ensures IsResumption(before, after, done + recovered, script)
  {
    ConfirmedFirst(done, recovered);
    OpenErrors(before, script);
    OpenCutShort(before, script);
  }

  method SplitConfirmed(existing: seq<TxRecord>) returns (confirmed: seq<UnitOutcome>, toRecover: seq<TxRecord>)
    ensures toRecover == Unconfirmed(existing)
    ensures JobsConfirmed(confirmed) == ConfirmedJobs(existing)
    ensures !AnyRetry(confirmed) && !AnyAborted(confirmed) && Errored !in confirmed
  {
    confirmed, toRecover := [], [];
    for k := 0 to |existing|
      invariant toRecover == Unconfirmed(existing[..k])
      invariant JobsConfirmed(confirmed) == ConfirmedJobs(existing[..k])
      invariant !AnyRetry(confirmed) && !AnyAborted(confirmed) && Errored !in confirmed
    {
      var record := existing[k];
      assert existing[..k + 1][..k] == existing[..k];
      if record.status == LANDED {
        var done := Confirmed(record.signature, Some(|record.jobs|));
        JobsConfirmedAppend(confirmed, done);
        assert [done][..0] == [];
        confirmed := confirmed + [done];
      } else {
        toRecover := toRecover + [record];
      }
    }
    assert existing[..|existing|] == existing;
  }

  /** A record as stored, and not yet confirmed. */
  predicate Open(records: seq<TxRecord>, record: TxRecord) {
    record.unit < |records| && records[record.unit] == record && record.status != LANDED
  }

  lemma OpenCutShort(records: seq<TxRecord>, script: Script)
    ensures ResumeCutShort(Unconfirmed(records), script) <==> ResumeCutShort(records, script)
  {
    forall r: TxRecord ensures r in Unconfirmed(records) <==> r in records && r.status != LANDED { UnconfirmedIff(records, r); }
  }

  lemma UnconfirmedAreOpen(records: seq<TxRecord>)
    requires Indexed(records)
    ensures AllOpen(records, Unconfirmed(records))
  {
    var toRecover := Unconfirmed(records);
    forall r: TxRecord ensures r in toRecover <==> r in records && r.status != LANDED { UnconfirmedIff(records, r); }
    forall j | 0 <= j < |toRecover| ensures Open(records, toRecover[j]) { assert toRecover[j] in toRecover; }
  }

  /** The open records of a ledger, and only those. */
  ghost predicate AllOpen(records: seq<TxRecord>, toRecover: seq<TxRecord>) {
    && (forall j :: 0 <= j < |toRecover| ==> Open(records, toRecover[j]))
    && (forall i :: 0 <= i < |records| && records[i].status != LANDED ==> records[i] in toRecover)
  }

  /** The first `k` open records are resumed, and every other record is as it was. */
  ghost predicate RecoveredTo(existing: seq<TxRecord>, now: seq<TxRecord>, toRecover: seq<TxRecord>, k: nat,
                              script: Script) {
    && |now| == |existing| && k <= |toRecover| && DistinctUnits(toRecover) && AllOpen(existing, toRecover)
    && (forall j :: 0 <= j < |toRecover| ==> now[toRecover[j].unit] == if j < k then Resumed(toRecover[j], script) else toRecover[j])
    && (forall i :: 0 <= i < |existing| && existing[i].status == LANDED ==> now[i] == existing[i])
  }

  ghost predicate NoneAborted(toRecover: seq<TxRecord>, k: nat, script: Script) {
    forall j :: 0 <= j < k && j < |toRecover| ==> !ResumeOutcome(toRecover[j], script).Aborted?
  }

  /** The outcomes so far report the errors and the cut-short sends of the first `k` records. */
  ghost predicate Tells(outcomes: seq<UnitOutcome>, toRecover: seq<TxRecord>, k: nat, script: Script)
    requires k <= |toRecover|
  {
    && multiset(outcomes)[Errored] == ResumeErrors(toRecover[..k], script) && !AnyRetry(outcomes)
    && (!AnyAborted(outcomes) <==> NoneAborted(toRecover, k, script))
  }

  lemma TellsMore(outcomes: seq<UnitOutcome>, applied: UnitOutcome, toRecover: seq<TxRecord>, k: nat, script: Script)
    requires k < |toRecover| && Tells(outcomes, toRecover, k, script)
    requires var outcome := ResumeOutcome(toRecover[k], script);
      !applied.Retry? && (applied.Aborted? <==> outcome.Aborted?) && (applied == Errored <==> outcome == Errored)
    requires toRecover[k].status != LANDED
    ensures Tells(outcomes + [applied], toRecover, k + 1, script)
  {
    OneMore(outcomes, applied);
    assert toRecover[..k + 1] == toRecover[..k] + [toRecover[k]];
    ResumeErrorsMore(toRecover[..k], toRecover[k], script);
  }

  predicate AnyCutShort(signed: seq<TxRecord>, script: Script) {
    exists r :: r in signed && CutShort(script.nets(r.unit))
  }

  /** The first `k` signed units are stored behind what was, each as its own send left it. */
  ghost predicate TakenIn(base: seq<TxRecord>, now: seq<TxRecord>, signed: seq<TxRecord>, k: nat, script: Script)
    requires k <= |signed|
  {
    && |now| == |base| + k && now[..|base|] == base
    && forall j :: 0 <= j < k ==> now[|base| + j] == After(signed[j], SendOutcome(signed[j], script.nets(signed[j].unit)))
  }

  lemma TakenInMore(base: seq<TxRecord>, now: seq<TxRecord>, signed: seq<TxRecord>, k: nat, script: Script)
    requires k < |signed| && TakenIn(base, now, signed, k, script)
    ensures TakenIn(base, now + [After(signed[k], SendOutcome(signed[k], script.nets(signed[k].unit)))], signed, k + 1, script)
  {
  }

  ghost predicate SettledFrom(records: seq<TxRecord>, start: nat) {
    forall i :: start <= i < |records| ==> IsSettled(records[i])
  }

  /** And those of the first `k` messages. */
  ghost predicate TellsSends(outcomes: seq<UnitOutcome>, signed: seq<TxRecord>, k: nat, script: Script)
    requires k <= |signed|
  {
    && multiset(outcomes)[Errored] == SendErrors(signed[..k], script) && !AnyRetry(outcomes)
    && (AnyAborted(outcomes) <==> AnyCutShort(signed[..k], script))
  }

  lemma TellsSendsMore(outcomes: seq<UnitOutcome>, applied: UnitOutcome, signed: seq<TxRecord>, k: nat, script: Script)
    requires k < |signed| && TellsSends(outcomes, signed, k, script)
    requires var net := script.nets(signed[k].unit);
      !applied.Retry? && (applied.Aborted? <==> CutShort(net)) && (applied == Errored <==> Refused(net))
    ensures TellsSends(outcomes + [applied], signed, k + 1, script)
    ensures AnyAborted(outcomes + [applied]) <==> AnyAborted(outcomes) || applied.Aborted?
  {
    OneMore(outcomes, applied);
    assert signed[..k + 1][..k] == signed[..k] && signed[..k + 1] == signed[..k] + [signed[k]];
    assert forall r :: r in signed[..k + 1] <==> r in signed[..k] || r == signed[k];
  }

  lemma NoneAbortedIff(toRecover: seq<TxRecord>, script: Script)
    requires forall j :: 0 <= j < |toRecover| ==> toRecover[j].status != LANDED
    ensures NoneAborted(toRecover, |toRecover|, script) <==> !ResumeCutShort(toRecover, script)
  {
    forall r | r in toRecover ensures ResumeOutcome(r, script).Aborted? <==> Resends(r, script) && CutShort(script.nets(r.unit)) {
      ResumeOutcomeIs(r, script);
    }
    if NoneAborted(toRecover, |toRecover|, script) {
      forall r | r in toRecover ensures !ResumeOutcome(r, script).Aborted? {
        var j :| 0 <= j < |toRecover| && toRecover[j] == r;
      }
    } else {
      var j :| 0 <= j < |toRecover| && ResumeOutcome(toRecover[j], script).Aborted?;
      assert toRecover[j] in toRecover;
    }
  }

  lemma RecoverStep(existing: seq<TxRecord>, now: seq<TxRecord>, toRecover: seq<TxRecord>, k: nat, script: Script)
    requires RecoveredTo(existing, now, toRecover, k, script) && k < |toRecover|
    ensures now[toRecover[k].unit] == toRecover[k]
    ensures RecoveredTo(existing, now[toRecover[k].unit := Resumed(toRecover[k], script)], toRecover, k + 1, script)
  {
    assert Open(existing, toRecover[k]);
  }

  lemma AllRecovered(existing: seq<TxRecord>, now: seq<TxRecord>, toRecover: seq<TxRecord>, script: Script)
    requires Indexed(existing) && BlobsHeld(existing) && RecoveredTo(existing, now, toRecover, |toRecover|, script)
    ensures forall i :: 0 <= i < |now| ==> now[i] == Resumed(existing[i], script)
    ensures NoneAborted(toRecover, |toRecover|, script) ==> AllSettled(now)
  {
    forall i | 0 <= i < |now|
      ensures now[i] == Resumed(existing[i], script)
      ensures NoneAborted(toRecover, |toRecover|, script) ==> IsSettled(now[i])
    {
      if existing[i].status != LANDED {
        var j :| 0 <= j < |toRecover| && toRecover[j] == existing[i];
        assert Open(existing, toRecover[j]) && now[toRecover[j].unit] == Resumed(toRecover[j], script);
      }
    }
  }

  /** What the resume pass does to the ledger, and reports. */
  ghost predicate IsResume(before: seq<TxRecord>, after: seq<TxRecord>, script: Script, result: OrchestrateResult) {
    && |after| == |before|
    && (forall i :: 0 <= i < |after| ==> after[i] == if script.abortedAtStart then before[i] else Resumed(before[i], script))
    && result.confirmed == ConfirmedJobs(after)
    && result.errored == (if script.abortedAtStart then 0 else ResumeErrors(before, script))
    && (result.aborted <==> if |before| == 0 then script.abortedAtStart
                            else script.abortedAtResumed || ResumeCutShort(before, script))
    && !result.retry && result.retryAfterMs.None?
    && (!result.aborted ==> !script.abortedAtStart && AllSettled(after))
  }

  /** What the worker's pass does, `taken` being the signed units that arrived. */
  ghost predicate IsTopUp(before: seq<TxRecord>, after: seq<TxRecord>, taken: seq<TxRecord>, script: Script,
                          result: OrchestrateResult) {
    && TakenIn(before, after, taken, |taken|, script)
    && result.confirmed + ConfirmedJobs(before) == ConfirmedJobs(after)
    && result.errored == SendErrors(taken, script)
    && (result.aborted <==> script.abortedAtEnd || AnyCutShort(taken, script))
    && !result.retry && result.retryAfterMs.None?
    && (!result.aborted ==> SettledFrom(after, |before|))
  }

  /** Each record after a whole attempt, and what the attempt reports of it. */
  ghost predicate Reconciles(before: seq<TxRecord>, after: seq<TxRecord>, target: nat, script: Script,
                             result: OrchestrateResult, resumed: nat, taken: seq<TxRecord>) {
    && |after| == |before| + |taken|
    && (forall i :: 0 <= i < |before| ==> after[i] == if script.abortedAtStart then before[i] else Resumed(before[i], script))
    && (forall k :: 0 <= k < |taken| ==>
          after[|before| + k] == After(taken[k], SendOutcome(taken[k], script.nets(taken[k].unit))))
    && resumed == ConfirmedJobs(after[..|before|]) && (taken != [] ==> resumed < target)
    && result.confirmed == ConfirmedJobs(after)
    && (!result.aborted ==> !script.abortedAtStart && AllSettled(after))
    && !result.retry
    && (result.aborted <==>
          || (if |before| == 0 then script.abortedAtStart else script.abortedAtResumed || ResumeCutShort(before, script))
          || (resumed < target && (script.abortedAtEnd || AnyCutShort(taken, script))))
    && result.errored == (if script.abortedAtStart then 0 else ResumeErrors(before, script)) + SendErrors(taken, script)
  }

  lemma ResumeReconciles(before: seq<TxRecord>, after: seq<TxRecord>, target: nat, script: Script, result: OrchestrateResult)
    requires IsResume(before, after, script, result) && (result.aborted || result.confirmed >= target)
    ensures Reconciles(before, after, target, script, result, result.confirmed, [])
  {
    assert after[..|before|] == after;
  }

  function BothPasses(resume: OrchestrateResult, topUp: OrchestrateResult): OrchestrateResult {
    OrchestrateResult(resume.confirmed + topUp.confirmed, resume.errored + topUp.errored, topUp.aborted,
                      resume.retry || topUp.retry,
                      if topUp.retryAfterMs.Some? then topUp.retryAfterMs else resume.retryAfterMs)
  }

  lemma BothReconcile(before: seq<TxRecord>, mid: seq<TxRecord>, after: seq<TxRecord>, target: nat, script: Script,
                      resume: OrchestrateResult, topUp: OrchestrateResult, taken: seq<TxRecord>)
    requires IsResume(before, mid, script, resume) && !resume.aborted && resume.confirmed < target
    requires IsTopUp(mid, after, taken, script, topUp)
    ensures Reconciles(before, after, target, script, BothPasses(resume, topUp), resume.confirmed, taken)
  {
    assert after[..|before|] == mid;
    forall i | 0 <= i < |before| ensures after[i] == mid[i] { assert after[..|mid|][i] == mid[i]; }
  }

  /**
   * A record is confirmed after an attempt exactly if it was before, if its
   * transaction was seen landed, or if its own send was tracked confirmed. It keeps
   * its bytes exactly if that send was cut short: any other open one is given up on.
   */
  lemma ReconciledLandsIff(before: seq<TxRecord>, after: seq<TxRecord>, target: nat, script: Script,
                           result: OrchestrateResult, resumed: nat, taken: seq<TxRecord>, i: nat)
    requires Reconciles(before, after, target, script, result, resumed, taken) && i < |after|
    requires forall k :: 0 <= k < |taken| ==> taken[k].blob.Some? && taken[k].status == SIGNED
    ensures i < |before| ==>
              (after[i].status == LANDED <==>
                 || before[i].status == LANDED
                 || (!script.abortedAtStart
                     && (SeenLanded(before[i], script.statuses)
                         || (Resends(before[i], script) && Delivered(script.nets(before[i].unit))))))
    ensures i >= |before| ==> (after[i].status == LANDED <==> Delivered(script.nets(taken[i - |before|].unit)))
    ensures i < |before| && before[i].status != LANDED && !script.abortedAtStart ==>
              (after[i].blob.Some? <==> Resends(before[i], script) && CutShort(script.nets(before[i].unit)))
    ensures i >= |before| ==> (after[i].blob.Some? <==> CutShort(script.nets(taken[i - |before|].unit)))
  {
    if i < |before| { ResumeOutcomeIs(before[i], script); }
    else {
      var record := taken[i - |before|];
      SendOutcomeIs(record, script.nets(record.unit));
      assert after[|before| + (i - |before|)] == After(record, SendOutcome(record, script.nets(record.unit)));
    }
  }

  /** The stored transactions of one task, and the passes of one attempt over them. */
  class TaskLedger {
    var transactions: seq<TxRecord>

    ghost predicate Valid()
      reads this
    {
      Indexed(transactions) && BlobsHeld(transactions)
    }

    constructor (transactions: seq<TxRecord>)
      requires Indexed(transactions) && BlobsHeld(transactions)
      ensures Valid() && this.transactions == transactions
    {
      this.transactions := transactions;
    }

    method PersistSignedRecord(record: TxRecord)
      requires Valid() && record.unit == |transactions| && record.status == SIGNED
      modifies this
      ensures Valid() && transactions == old(transactions) + [record]
    {
      transactions := transactions + [record];
    }

    /** Record a unit's outcome on its stored record, counting its jobs if it landed. */
    method ApplyOutcome(record: TxRecord, outcome: UnitOutcome) returns (applied: UnitOutcome)
      requires Valid() && record.unit < |transactions| && record == transactions[record.unit] && record.status != LANDED
      requires outcome.Confirmed? ==> outcome.signature == record.signature
      modifies this
      ensures Valid() && transactions == old(transactions)[record.unit := After(record, outcome)]
      ensures ConfirmedJobs(transactions) == ConfirmedJobs(old(transactions)) + JobsConfirmed([applied])
      ensures applied == if outcome.Confirmed? then outcome.(jobCount := Some(|record.jobs|)) else outcome
    {
      ConfirmedJobsMark(transactions, record.unit, After(record, outcome));
      transactions := transactions[record.unit := After(record, outcome)];
      applied := outcome;
      if outcome.Confirmed? { applied := outcome.(jobCount := Some(|record.jobs|)); }
      assert [applied][..0] == [];
    }

    method DriveSend(record: TxRecord, net: Net) returns (applied: UnitOutcome)
      requires Valid() && record.unit < |transactions| && record == transactions[record.unit] && record.status != LANDED
      modifies this
      ensures Valid() && transactions == old(transactions)[record.unit := After(record, SendOutcome(record, net))]
      ensures ConfirmedJobs(transactions) == ConfirmedJobs(old(transactions)) + JobsConfirmed([applied])
      ensures applied.Aborted? <==> SendOutcome(record, net).Aborted?
      ensures applied == Errored <==> SendOutcome(record, net) == Errored
      ensures !applied.Retry?
    {
      var outcome, _ := SendUnit(record, net);
      applied := ApplyOutcome(record, outcome);
    }

    /** Drive every record still open, in one recovery: a resend, or the verdict recovery reached. */
    method RecoverAll(toRecover: seq<TxRecord>, script: Script) returns (outcomes: seq<UnitOutcome>)
      requires Valid() && DistinctUnits(toRecover) && AllOpen(transactions, toRecover)
      modifies this
      ensures Valid() && |transactions| == |old(transactions)|
      ensures forall i :: 0 <= i < |transactions| ==> transactions[i] == Resumed(old(transactions)[i], script)
      ensures JobsConfirmed(outcomes) + ConfirmedJobs(old(transactions)) == ConfirmedJobs(transactions)
      ensures !AnyRetry(outcomes)
      ensures !AnyAborted(outcomes) ==> AllSettled(transactions)
      ensures multiset(outcomes)[Errored] == ResumeErrors(toRecover, script)
      ensures AnyAborted(outcomes) <==> ResumeCutShort(toRecover, script)
    {
      ghost var existing := transactions;
      outcomes := [];
      assert Tells(outcomes, toRecover, 0, script);
      var actions := RecoverUnits(toRecover, script.height, script.statuses);
      for k := 0 to |toRecover|
        invariant Valid() && RecoveredTo(existing, transactions, toRecover, k, script)
        invariant JobsConfirmed(outcomes) + ConfirmedJobs(existing) == ConfirmedJobs(transactions)
        invariant Tells(outcomes, toRecover, k, script)
      {
        var record := toRecover[k];
        RecoverStep(existing, transactions, toRecover, k, script);
        var applied := RecoverOne(record, actions[record.unit], script);
        JobsConfirmedAppend(outcomes, applied);
        TellsMore(outcomes, applied, toRecover, k, script);
        outcomes := outcomes + [applied];
      }
      assert toRecover[..|toRecover|] == toRecover;
      NoneAbortedIff(toRecover, script);
      AllRecovered(existing, transactions, toRecover, script);
    }

    method RecoverOne(record: TxRecord, action: RecoveryAction, script: Script) returns (applied: UnitOutcome)
      requires Valid() && record.unit < |transactions| && record == transactions[record.unit] && record.status != LANDED
      requires action == Recovery(record, script.height, script.statuses)
      modifies this
      ensures Valid() && transactions == old(transactions)[record.unit := Resumed(record, script)]
      ensures ConfirmedJobs(transactions) == ConfirmedJobs(old(transactions)) + JobsConfirmed([applied])
      ensures applied.Aborted? <==> ResumeOutcome(record, script).Aborted?
      ensures applied == Errored <==> ResumeOutcome(record, script) == Errored
      ensures !applied.Retry?
    {
      if action.Resend? {
        applied := DriveSend(record, script.nets(record.unit));
      } else {
        applied := ApplyOutcome(record, action.outcome);
      }
    }

    /** Resume the records of earlier attempts: confirmed ones count as they are, the rest are recovered. */
    method ResumeExisting(script: Script) returns (outcomes: seq<UnitOutcome>)
      requires Valid()
      modifies this
      ensures Valid() && IsResumption(old(transactions), transactions, outcomes, script)
    {
      var toRecover;
      outcomes, toRecover := SplitConfirmed(transactions);
      ghost var before := transactions;
      if script.abortedAtStart {
        NothingResumed(before, outcomes, script);
        return;
      }
      if |toRecover| == 0 {
        NothingOpen(before, outcomes, script);
        return;
      }
      UnconfirmedDistinct(before);
      UnconfirmedAreOpen(before);
      var recovered := RecoverAll(toRecover, script);
      AllResumed(before, transactions, outcomes, recovered, script);
      outcomes := outcomes + recovered;
    }

    /** One SIGNED message: persisted first, broadcast after. */
    method TakeIn(record: TxRecord, net: Net) returns (applied: UnitOutcome)
      requires Valid() && record.unit == |transactions| && record.status == SIGNED
      modifies this
      ensures Valid() && transactions == old(transactions) + [After(record, SendOutcome(record, net))]
      ensures ConfirmedJobs(transactions) == ConfirmedJobs(old(transactions)) + JobsConfirmed([applied])
      ensures !applied.Retry?
      ensures !applied.Aborted? ==> IsSettled(transactions[record.unit])
      ensures record.blob.Some? ==> (applied == Errored <==> Refused(net)) && (applied.Aborted? <==> CutShort(net))
      ensures record.blob.Some? ==> (transactions[record.unit].status == LANDED <==> Delivered(net))
    {
      ConfirmedJobsAppend(transactions, record);
      if record.blob.Some? { SendOutcomeIs(record, net); }
      PersistSignedRecord(record);
      applied := DriveSend(record, net);
    }

    /**
     * Take in the signed units of a worker, each persisted before it is sent.
     * `handled` of them arrive before the lease is killed, all if it never is.
     */
    method RunWorkerMessages(signed: seq<TxRecord>, script: Script) returns (outcomes: seq<UnitOutcome>)
      requires Valid() && Fresh(signed, |transactions|)
      requires script.handled <= |signed|
      modifies this
      ensures Valid() && |transactions| == |old(transactions)| + script.handled
      ensures transactions[..|old(transactions)|] == old(transactions)
      ensures forall k :: 0 <= k < script.handled ==>
                transactions[|old(transactions)| + k] == After(signed[k], SendOutcome(signed[k], script.nets(signed[k].unit)))
      ensures JobsConfirmed(outcomes) + ConfirmedJobs(old(transactions)) == ConfirmedJobs(transactions)
      ensures !AnyRetry(outcomes)
      ensures !AnyAborted(outcomes) ==> SettledFrom(transactions, |old(transactions)|)
      ensures forall k :: 0 <= k < script.handled ==>
                (transactions[|old(transactions)| + k].status == LANDED <==> Delivered(script.nets(signed[k].unit)))
      ensures multiset(outcomes)[Errored] == SendErrors(signed[..script.handled], script)
      ensures AnyAborted(outcomes) <==> AnyCutShort(signed[..script.handled], script)
    {
      ghost var base := transactions;
      outcomes := [];
      for k := 0 to script.handled
        invariant Valid() && TakenIn(base, transactions, signed, k, script)
        invariant JobsConfirmed(outcomes) + ConfirmedJobs(base) == ConfirmedJobs(transactions)
        invariant !AnyAborted(outcomes) ==> SettledFrom(transactions, |base|)
        invariant TellsSends(outcomes, signed, k, script)
      {
        ghost var before := transactions;
        var applied := TakeIn(signed[k], script.nets(signed[k].unit));
        TakenInMore(base, before, signed, k, script);
        JobsConfirmedAppend(outcomes, applied);
        TellsSendsMore(outcomes, applied, signed, k, script);
        outcomes := outcomes + [applied];
      }
      SentLands(signed, script);
    }

    /** The resume pass, tallied: nothing to resume only reports whether the lease was killed. */
    method OrchestrateResume(script: Script) returns (result: OrchestrateResult)
      requires Valid() && script.Valid()
      modifies this
      ensures Valid() && IsResume(old(transactions), transactions, script, result)
    {
      if |transactions| > 0 {
        var outcomes := ResumeExisting(script);
        result := Tally(outcomes, script.abortedAtResumed);
      } else {
        result := OrchestrateResult(0, 0, script.abortedAtStart, false, None);
      }
    }

    /** The worker's pass, tallied: no worker means nothing to sign. */
    method OrchestrateWorker(worker: Option<seq<TxRecord>>, script: Script) returns (result: OrchestrateResult)
      requires Valid() && (worker.Some? ==> Fresh(worker.value, |transactions|) && script.handled <= |worker.value|)
      modifies this
      ensures Valid()
      ensures IsTopUp(old(transactions), transactions, if worker.Some? then worker.value[..script.handled] else [], script, result)
    {
      var outcomes: seq<UnitOutcome> := [];
      if worker.Some? { outcomes := RunWorkerMessages(worker.value, script); }
      result := Tally(outcomes, script.abortedAtEnd);
    }

    /**
     * Bring the task to its frozen target: resume what earlier attempts left,
     * then have the worker sign the shortfall and no more. `resumed` is the number
     * of jobs confirmed by then, `taken` the signed units that arrived.
     */
    method ReconcileUnits(target: nat, script: Script, makeWorker: (nat, nat) -> Option<seq<TxRecord>>)
      returns (result: OrchestrateResult, ghost resumed: nat, ghost taken: seq<TxRecord>)
      requires Valid() && script.Valid()
      requires forall count, start :: makeWorker(count, start).Some? ==>
                 Fresh(makeWorker(count, start).value, start)
                 && (script.abortedAtEnd ==> script.handled <= |makeWorker(count, start).value|)
                 && (!script.abortedAtEnd ==> script.handled == |makeWorker(count, start).value|)
      modifies this
      ensures Valid() && Reconciles(old(transactions), transactions, target, script, result, resumed, taken)
      ensures var early := if |old(transactions)| == 0 then script.abortedAtStart
                           else script.abortedAtResumed || ResumeCutShort(old(transactions), script);
        taken == if early || resumed >= target || makeWorker(target - resumed, |old(transactions)|).None? then []
                 else makeWorker(target - resumed, |old(transactions)|).value[..script.handled]
    {
      ghost var existing := transactions;
      var resume := OrchestrateResume(script);
      resumed, taken := resume.confirmed, [];
      ghost var mid := transactions;
      if resume.aborted {
        ResumeReconciles(existing, mid, target, script, resume);
        return resume, resumed, taken;
      }

      var needed := if target > resume.confirmed then target - resume.confirmed else 0;
      if needed == 0 {
        ResumeReconciles(existing, mid, target, script, resume);
        return resume, resumed, taken;
      }

      var worker := makeWorker(needed, |transactions|);
      if worker.Some? { taken := worker.value[..script.handled]; }
      var topUp := OrchestrateWorker(worker, script);
      BothReconcile(existing, mid, transactions, target, script, resume, topUp, taken);
      result := OrchestrateResult(resume.confirmed + topUp.confirmed, resume.errored + topUp.errored, topUp.aborted,
                                  resume.retry || topUp.retry,
                                  if topUp.retryAfterMs.Some? then topUp.retryAfterMs else resume.retryAfterMs);
    }

    /**
     * The pass of a LIST whose deployment stopped: the worker is asked for
     * nothing. Un-aborted it settles every record and adds none, so no bytes
     * are left that could keep the task in flight.
     */
    method Drain(target: nat, script: Script) returns (result: OrchestrateResult)
      requires Valid() && script.Valid()
      modifies this
      ensures Valid() && |transactions| == |old(transactions)|
      ensures result.confirmed == ConfirmedJobs(transactions)
      ensures !result.aborted ==> AllSettled(transactions) && !HoldsBytes(transactions)
      ensures !result.aborted ==> forall i :: 0 <= i < |transactions| ==>
                transactions[i] == Resumed(old(transactions)[i], script)
    {
      ghost var resumed, taken;
      result, resumed, taken := ReconcileUnits(target, script, (count, start) => None);
    }
  }
}
