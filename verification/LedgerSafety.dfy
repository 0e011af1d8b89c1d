/**
 * One self-custody LIST task over any number of sequential attempts, with a
 * crash possible between any two steps: sign, persist, broadcast, land, mark.
 */
module LedgerSafety {
  import opened Prelude
  import opened Chain
  import opened Nodes
  import opened Records
  import opened Reconciliation

  /**
   * An attempt: how many records it loaded, which units it has a verdict on,
   * what its worker signed that is not persisted yet, and whether it topped up.
   */
  datatype Run = Run(count: nat, heard: set<nat>, queue: seq<TxRecord>, toppedUp: bool)

  /**
   * The stored task and the chain. `judged` are the signatures some attempt gave
   * up on. `reserves` says the task lists onto reserved nodes, one job a node;
   * `asked` is the count of its one request and `child` the limit handed off,
   * `refused` if that was on a refusal of its terms. `lapsed` says no node can be
   * had of the request any more: its hold is over, or it closed without a fill.
   */
  datatype State = State(
    reserves: bool, target: Option<nat>, records: seq<TxRecord>,
    asked: Option<nat>, reservation: Option<seq<string>>, lapsed: bool, child: Option<nat>, refused: bool,
    run: Option<Run>, broadcast: set<Signature>, landed: set<Signature>, judged: set<Signature>)

  datatype Event =
    | Begin(computed: nat)
    | Broadcast(unit: nat)
    | Judge(unit: nat, outcome: UnitOutcome)
    | Ask(count: nat)
    | Fill(nodes: seq<string>)
    | Lapse
    | TopUp(signed: seq<TxRecord>)
    | Persist
    | HandOff
    | Refuse
    | Land(signature: Signature)
    | End

  function NodesOf(records: seq<TxRecord>): seq<string> {
    if records == [] then [] else NodesOf(records[..|records| - 1]) + records[|records| - 1].nodes
  }

  /** The jobs of the records whose signature is in (or not in) a set. */
  function JobsIf(records: seq<TxRecord>, signatures: set<Signature>, inside: bool): nat {
    if records == [] then 0
    else
      var last := records[|records| - 1];
      JobsIf(records[..|records| - 1], signatures, inside)
      + (if (last.signature in signatures) == inside then |last.jobs| else 0)
  }

  function Needed(s: State): nat
    requires s.target.Some?
  {
    var confirmed := ConfirmedJobs(s.records);
    if s.target.value > confirmed then s.target.value - confirmed else 0
  }

  /** The attempt has a verdict on every record it loaded. */
  ghost predicate Rested(s: State) {
    s.run.Some? && s.target.Some? && s.run.value.count <= |s.records|
    && forall i :: 0 <= i < s.run.value.count ==> s.records[i].status == LANDED || i in s.run.value.heard
  }

  /** The nodes an attempt signs: those still held and unused, up to what is needed. */
  function ToSign(s: State): seq<string>
    requires s.target.Some?
  {
    if s.reservation.None? || s.lapsed then []
    else
      var unused := Unused(s.reservation.value, NodesOf(s.records));
      unused[..if |unused| <= Needed(s) then |unused| else Needed(s)]
  }

  /** The signer packs exactly what was asked: the nodes in order, one job each, or as many jobs as needed. */
  ghost predicate SignsExactly(s: State, signed: seq<TxRecord>)
    requires s.target.Some?
  {
    && Fresh(signed, |s.records|)
    && if s.reserves then
         && ToSign(s) != [] && NodesOf(signed) == ToSign(s)
         && forall k :: 0 <= k < |signed| ==> |signed[k].jobs| == |signed[k].nodes|
       else JobsIf(signed, {}, false) == Needed(s)
  }

  /** An attempt at its end: a verdict on every record, and jobs still missing. */
  ghost predicate CanHandOff(s: State) {
    && s.reserves && Rested(s) && s.run.value.queue == [] && Needed(s) > 0
    && forall i :: 0 <= i < |s.records| ==> s.records[i].status == LANDED || i in s.run.value.heard
  }

  ghost predicate Enabled(s: State, e: Event) {
    match e
    case Begin(_) => s.run.None?
    case Broadcast(unit) => s.run.Some? && unit < |s.records| && s.records[unit].blob.Some? && unit !in s.run.value.heard
    case Judge(unit, outcome) =>
      && s.run.Some? && unit < |s.records| && s.records[unit].status != LANDED && unit !in s.run.value.heard
      && (outcome.Expired? || outcome.Errored?
          || (outcome.Confirmed? && outcome.signature == s.records[unit].signature && outcome.signature in s.landed))
    case Ask(count) =>
      s.reserves && Rested(s) && !s.run.value.toppedUp && s.asked.None? && s.reservation.None? && count <= Needed(s)
    case Fill(nodes) =>
      s.reserves && s.asked.Some? && s.reservation.None? && Distinct(nodes) && 0 < |nodes| <= s.asked.value
    case Lapse => s.asked.Some?
    case TopUp(signed) => Rested(s) && !s.run.value.toppedUp && Needed(s) > 0 && SignsExactly(s, signed)
    case Persist => s.run.Some? && s.run.value.queue != []
    case HandOff => CanHandOff(s) && if s.reservation.Some? then s.run.value.toppedUp || ToSign(s) == [] else s.lapsed
    case Refuse => CanHandOff(s) && s.asked.Some? && s.reservation.None?
    case Land(signature) => signature in s.broadcast
    case End => s.run.Some?
  }

  ghost function Next(s: State, e: Event): State
    requires Enabled(s, e)
  {
    match e
    case Begin(computed) =>
      s.(target := if s.target.None? then Some(computed) else s.target, run := Some(Run(|s.records|, {}, [], false)))
    case Broadcast(unit) => s.(broadcast := s.broadcast + {s.records[unit].signature})
    case Judge(unit, outcome) =>
      s.(records := s.records[unit := After(s.records[unit], outcome)],
         run := Some(s.run.value.(heard := s.run.value.heard + {unit})),
         judged := if outcome.Confirmed? then s.judged else s.judged + {s.records[unit].signature})
    case Ask(count) => s.(asked := Some(count))
    case Fill(nodes) => s.(reservation := Some(nodes))
    case Lapse => s.(lapsed := true)
    case TopUp(signed) => s.(run := Some(s.run.value.(queue := signed, toppedUp := true)))
    case Persist =>
      s.(records := s.records + [s.run.value.queue[0]], run := Some(s.run.value.(queue := s.run.value.queue[1..])))
    case HandOff => s.(child := if s.child.None? then Some(Needed(s)) else s.child)
    case Refuse => if s.child.None? then s.(child := Some(Needed(s)), refused := true) else s
    case Land(signature) => s.(landed := s.landed + {signature})
    case End => s.(run := None)
  }

  function Initial(reserves: bool): State {
    State(reserves, None, [], None, None, false, None, false, None, {}, {}, {})
  }

  ghost predicate IsRun(s: State, events: seq<Event>)
    decreases |events|
  {
    events != [] ==> Enabled(s, events[0]) && IsRun(Next(s, events[0]), events[1..])
  }

  ghost function Final(s: State, events: seq<Event>): State
    requires IsRun(s, events)
    decreases |events|
  {
    if events == [] then s else Final(Next(s, events[0]), events[1..])
  }

  function Queue(s: State): seq<TxRecord> { if s.run.Some? then s.run.value.queue else [] }

  ghost predicate RunOk(s: State) {
    s.run.Some? ==>
      var run := s.run.value;
      && s.target.Some? && run.count <= |s.records| && Fresh(run.queue, |s.records|)
      && (!run.toppedUp ==> run.queue == [] && |s.records| == run.count)
      && forall u :: u in run.heard ==> u < |s.records| && Settled(s, u)
  }

  /** A record nobody waits for: confirmed, or given up on by some attempt. */
  predicate Settled(s: State, unit: nat) {
    unit < |s.records| && (s.records[unit].status == LANDED || s.records[unit].signature in s.judged)
  }

  ghost predicate Stored(s: State, signature: Signature) {
    exists i :: 0 <= i < |s.records| && s.records[i].signature == signature
  }

  /** What is not given up on, signed jobs included, stays within the target. */
  ghost predicate Budget(s: State) {
    if s.target.None? then s.records == []
    else JobsIf(s.records, s.judged, false) + JobsIf(Queue(s), {}, false) <= s.target.value
  }

  ghost predicate Inv(s: State) {
    && Indexed(s.records) && RunOk(s) && Budget(s)
    && (forall signature :: signature in s.landed ==> signature in s.broadcast)
    && (forall signature :: signature in s.broadcast ==> Stored(s, signature))
    && (forall i :: 0 <= i < |s.records| && s.records[i].status == LANDED ==> s.records[i].signature in s.landed)
  }

  lemma JobsIfAppend(records: seq<TxRecord>, record: TxRecord, signatures: set<Signature>, inside: bool)
    ensures JobsIf(records + [record], signatures, inside)
         == JobsIf(records, signatures, inside) + if (record.signature in signatures) == inside then |record.jobs| else 0
  {
    assert (records + [record])[..|records|] == records;
  }

  lemma {:induction false} JobsIfHead(records: seq<TxRecord>, signatures: set<Signature>, inside: bool)
    requires records != []
    ensures JobsIf(records, signatures, inside)
         == JobsIf(records[1..], signatures, inside)
            + if (records[0].signature in signatures) == inside then |records[0].jobs| else 0
  {
    var front := records[..|records| - 1];
    if front != [] {
      JobsIfHead(front, signatures, inside);
      assert records[1..][..|records| - 2] == front[1..];
    }
  }

  /** The sum depends on signatures and job counts alone, and shrinks as the set outside it grows. */
  lemma {:induction false} JobsIfSame(records: seq<TxRecord>, later: seq<TxRecord>, before: set<Signature>,
                                      after: set<Signature>)
    requires |records| == |later| && before <= after
    requires forall i :: 0 <= i < |records| ==> records[i].signature == later[i].signature && records[i].jobs == later[i].jobs
    ensures JobsIf(later, after, false) <= JobsIf(records, before, false)
  {
    if records != [] { JobsIfSame(records[..|records| - 1], later[..|records| - 1], before, after); }
  }

  /** With every record confirmed or given up on, what is not given up on is confirmed. */
  lemma {:induction false} LiveIsConfirmed(records: seq<TxRecord>, judged: set<Signature>)
    requires forall i :: 0 <= i < |records| ==> records[i].status == LANDED || records[i].signature in judged
    ensures JobsIf(records, judged, false) <= ConfirmedJobs(records)
  {
    if records != [] { LiveIsConfirmed(records[..|records| - 1], judged); }
  }

  /** Landed jobs are at most those not given up on, plus those given up on that landed all the same. */
  lemma {:induction false} LandedSplits(records: seq<TxRecord>, landed: set<Signature>, judged: set<Signature>)
    ensures JobsIf(records, landed, true) <= JobsIf(records, judged, false) + JobsIf(records, landed * judged, true)
  {
    if records != [] { LandedSplits(records[..|records| - 1], landed, judged); }
  }

  lemma {:induction false} NoneIn(records: seq<TxRecord>)
    ensures JobsIf(records, {}, true) == 0
  {
    if records != [] { NoneIn(records[..|records| - 1]); }
  }

  lemma PersistKeeps(s: State)
    requires Inv(s) && Enabled(s, Persist)
    ensures Inv(Next(s, Persist))
  {
    var t := Next(s, Persist);
    var record := s.run.value.queue[0];
    JobsIfAppend(s.records, record, s.judged, false);
    JobsIfHead(s.run.value.queue, {}, false);
    assert Fresh(t.run.value.queue, |t.records|);
    forall signature | signature in t.broadcast ensures Stored(t, signature) {
      var i :| 0 <= i < |s.records| && s.records[i].signature == signature;
      assert t.records[i].signature == signature;
    }
    forall u | u in t.run.value.heard ensures Settled(t, u) { assert Settled(s, u); }
  }

  lemma JudgeKeeps(s: State, unit: nat, outcome: UnitOutcome)
    requires Inv(s) && Enabled(s, Judge(unit, outcome))
    ensures Inv(Next(s, Judge(unit, outcome)))
  {
    var t := Next(s, Judge(unit, outcome));
    JobsIfSame(s.records, t.records, s.judged, t.judged);
    forall signature | signature in t.broadcast ensures Stored(t, signature) {
      var i :| 0 <= i < |s.records| && s.records[i].signature == signature;
      assert t.records[i].signature == signature;
    }
    forall u | u in t.run.value.heard ensures u < |t.records| && Settled(t, u) {
      if u != unit { assert Settled(s, u); }
    }
  }

  lemma TopUpKeeps(s: State, signed: seq<TxRecord>)
    requires Inv(s) && Enabled(s, TopUp(signed))
    ensures Inv(Next(s, TopUp(signed)))
  {
    forall i | 0 <= i < |s.records| ensures s.records[i].status == LANDED || s.records[i].signature in s.judged {
      if i in s.run.value.heard { assert Settled(s, i); }
    }
    LiveIsConfirmed(s.records, s.judged);
    if s.reserves { JobsAreNodes(signed, {}); }
    forall u | u in s.run.value.heard ensures Settled(Next(s, TopUp(signed)), u) { assert Settled(s, u); }
  }

  /** One job a node: the jobs of such records number their nodes. */
  lemma {:induction false} JobsAreNodes(records: seq<TxRecord>, none: set<Signature>)
    requires none == {} && forall k :: 0 <= k < |records| ==> |records[k].jobs| == |records[k].nodes|
    ensures JobsIf(records, none, false) == |NodesOf(records)|
  {
    if records != [] { JobsAreNodes(records[..|records| - 1], none); }
  }

  lemma StepKeeps(s: State, e: Event)
    requires Inv(s) && Enabled(s, e)
    ensures Inv(Next(s, e))
  {
    if e.Persist? { PersistKeeps(s); }
    else if e.Judge? { JudgeKeeps(s, e.unit, e.outcome); }
    else if e.TopUp? { TopUpKeeps(s, e.signed); }
    else {
      var t := Next(s, e);
      assert t.records == s.records && t.judged == s.judged;
      forall signature | signature in t.broadcast ensures Stored(t, signature) {
        if signature in s.broadcast { assert Stored(s, signature); }
        else { assert t.records[e.unit].signature == signature; }
      }
      forall u | t.run.Some? && u in t.run.value.heard ensures Settled(t, u) { assert Settled(s, u); }
    }
  }

  lemma {:induction false} RunKeeps(s: State, events: seq<Event>)
    requires Inv(s) && IsRun(s, events)
    ensures Inv(Final(s, events))
    decreases |events|
  {
    if events != [] {
      StepKeeps(s, events[0]);
      RunKeeps(Next(s, events[0]), events[1..]);
    }
  }

  /**
   * After any number of attempts and crashes, the jobs landed exceed the frozen
   * target by no more than what landed after being given up on; every landed
   * transaction has its record; and records are numbered by position.
   */
  lemma LandedWithinTarget(reserves: bool, events: seq<Event>)
    requires IsRun(Initial(reserves), events)
    ensures var s := Final(Initial(reserves), events);
      && (s.target.Some? ==> JobsIf(s.records, s.landed, true) <= s.target.value + JobsIf(s.records, s.landed * s.judged, true))
      && (s.target.Some? && s.landed !! s.judged ==> JobsIf(s.records, s.landed, true) <= s.target.value)
      && (forall signature :: signature in s.landed ==> Stored(s, signature))
      && Indexed(s.records)
  {
    RunKeeps(Initial(reserves), events);
    var s := Final(Initial(reserves), events);
    LandedSplits(s.records, s.landed, s.judged);
    if s.landed !! s.judged {
      assert s.landed * s.judged == {};
      NoneIn(s.records);
    }
  }

  lemma {:induction false} RunsJoin(s: State, events: seq<Event>, more: seq<Event>)
    requires IsRun(s, events) && IsRun(Final(s, events), more)
    ensures IsRun(s, events + more) && Final(s, events + more) == Final(Final(s, events), more)
    decreases |events|
  {
    if events == [] {
      assert events + more == more;
    } else {
      RunsJoin(Next(s, events[0]), events[1..], more);
      assert (events + more)[1..] == events[1..] + more;
    }
  }

  /** The steps of sending one held record: it leaves, lands, and gets its verdict unless cut short. */
  function SendSteps(record: TxRecord, net: Net): seq<Event> {
    Leaving(record, net) + Landing(record, net) + Judging(record, SendOutcome(record, net))
  }

  function Leaving(record: TxRecord, net: Net): seq<Event> { if Leaves(net) then [Broadcast(record.unit)] else [] }

  function Landing(record: TxRecord, net: Net): seq<Event> { if Delivered(net) then [Event.Land(record.signature)] else [] }

  function Judging(record: TxRecord, outcome: UnitOutcome): seq<Event> {
    if outcome.Aborted? then [] else [Judge(record.unit, outcome)]
  }

  /** And of resuming one. */
  function ResumeSteps(record: TxRecord, script: Script): seq<Event> {
    if record.status == LANDED then []
    else if Resends(record, script) then SendSteps(record, script.nets(record.unit))
    else Judging(record, ResumeOutcome(record, script))
  }

  /** What one verdict leaves: the record, who heard it, and, if it gives up, the signature judged. */
  ghost predicate Judged(s: State, t: State, unit: nat, outcome: UnitOutcome)
    requires unit < |s.records| && s.run.Some?
  {
    && t.records == s.records[unit := After(s.records[unit], outcome)]
    && t.run == (if outcome.Aborted? then s.run else Some(s.run.value.(heard := s.run.value.heard + {unit})))
    && t.judged == s.judged + (if outcome.Expired? || outcome.Errored? then {s.records[unit].signature} else {})
    && s.landed <= t.landed && t.target == s.target && t.child == s.child && t.reservation == s.reservation
  }

  lemma OneStep(s: State, e: Event)
    requires Enabled(s, e)
    ensures IsRun(s, [e]) && Final(s, [e]) == Next(s, e)
  {
    assert [e][1..] == [];
  }

  lemma LeavingRuns(s: State, unit: nat, net: Net)
    requires s.run.Some? && unit < |s.records| && unit !in s.run.value.heard
    requires s.records[unit].unit == unit && s.records[unit].blob.Some?
    ensures IsRun(s, Leaving(s.records[unit], net))
    ensures Final(s, Leaving(s.records[unit], net))
         == if Leaves(net) then s.(broadcast := s.broadcast + {s.records[unit].signature}) else s
  {
    if Leaves(net) { OneStep(s, Broadcast(unit)); }
  }

  lemma LandingRuns(s: State, record: TxRecord, net: Net)
    requires Delivered(net) ==> record.signature in s.broadcast
    ensures IsRun(s, Landing(record, net))
    ensures Final(s, Landing(record, net)) == if Delivered(net) then s.(landed := s.landed + {record.signature}) else s
  {
    if Delivered(net) { OneStep(s, Event.Land(record.signature)); }
  }

  lemma JudgingRuns(s: State, unit: nat, outcome: UnitOutcome)
    requires s.run.Some? && unit < |s.records| && unit !in s.run.value.heard
    requires s.records[unit].unit == unit && s.records[unit].status != LANDED
    requires outcome in {Confirmed(s.records[unit].signature, None), Errored, Aborted, Expired}
    requires outcome.Confirmed? ==> s.records[unit].signature in s.landed
    ensures IsRun(s, Judging(s.records[unit], outcome))
    ensures Judged(s, Final(s, Judging(s.records[unit], outcome)), unit, outcome)
  {
    if outcome.Aborted? { assert s.records[unit := s.records[unit]] == s.records; }
    else { OneStep(s, Judge(unit, outcome)); }
  }

  lemma SendIsRun(s: State, unit: nat, net: Net)
    requires s.run.Some? && unit < |s.records| && unit !in s.run.value.heard
    requires s.records[unit].unit == unit && s.records[unit].status != LANDED && s.records[unit].blob.Some?
    ensures IsRun(s, SendSteps(s.records[unit], net))
    ensures Judged(s, Final(s, SendSteps(s.records[unit], net)), unit, SendOutcome(s.records[unit], net))
  {
    var record := s.records[unit];
    SendOutcomeIs(record, net);
    LeavingRuns(s, unit, net);
    var s1 := Final(s, Leaving(record, net));
    LandingRuns(s1, record, net);
    var s2 := Final(s1, Landing(record, net));
    RunsJoin(s, Leaving(record, net), Landing(record, net));
    JudgingRuns(s2, unit, SendOutcome(record, net));
    RunsJoin(s, Leaving(record, net) + Landing(record, net), Judging(record, SendOutcome(record, net)));
  }

  /** The statuses an attempt reads are true of the chain. */
  ghost predicate TrueOf(s: State, script: Script) {
    forall i :: 0 <= i < |s.records| && SeenLanded(s.records[i], script.statuses) ==> s.records[i].signature in s.landed
  }

  lemma OneResumed(s: State, unit: nat, script: Script)
    requires s.run.Some? && unit < |s.records| && unit !in s.run.value.heard && s.records[unit].unit == unit && TrueOf(s, script)
    ensures var steps := ResumeSteps(s.records[unit], script);
      && IsRun(s, steps)
      && if s.records[unit].status == LANDED then Final(s, steps) == s
         else Judged(s, Final(s, steps), unit, ResumeOutcome(s.records[unit], script))
  {
    var record := s.records[unit];
    if record.status != LANDED {
      ResumeOutcomeIs(record, script);
      if Resends(record, script) {
        SendIsRun(s, unit, script.nets(unit));
      } else {
        JudgingRuns(s, unit, ResumeOutcome(record, script));
      }
    }
  }

  function AllSteps(records: seq<TxRecord>, script: Script): seq<Event> {
    if records == [] then [] else AllSteps(records[..|records| - 1], script) + ResumeSteps(records[|records| - 1], script)
  }

  /** The ledger with its first `k` records resumed. */
  function ResumedTo(records: seq<TxRecord>, script: Script, k: nat): seq<TxRecord> {
    seq(|records|, i requires 0 <= i < |records| => if i < k then Resumed(records[i], script) else records[i])
  }

  ghost predicate GivenUp(record: TxRecord, script: Script) {
    record.status != LANDED && (ResumeOutcome(record, script).Expired? || ResumeOutcome(record, script).Errored?)
  }

  ghost predicate ResumedSo(s: State, t: State, script: Script, k: nat) {
    && s.run.Some? && t.run.Some? && t.run.value.count == s.run.value.count && t.run.value.queue == s.run.value.queue
    && t.run.value.toppedUp == s.run.value.toppedUp
    && t.records == ResumedTo(s.records, script, k)
    && (forall i: nat ::
          i in t.run.value.heard <==>
          (i < k && i < |s.records| && s.records[i].status != LANDED && !ResumeOutcome(s.records[i], script).Aborted?))
    && (forall signature :: signature in t.judged <==>
          signature in s.judged
          || exists i :: 0 <= i < k && i < |s.records| && GivenUp(s.records[i], script) && s.records[i].signature == signature)
    && s.landed <= t.landed && t.target == s.target && t.child == s.child && t.reservation == s.reservation
  }

  lemma ResumedOneMore(s: State, mid: State, t: State, script: Script, k: nat)
    requires s.run.Some? && k < |s.records| && ResumedSo(s, mid, script, k)
    requires if s.records[k].status == LANDED then t == mid else Judged(mid, t, k, ResumeOutcome(s.records[k], script))
    ensures ResumedSo(s, t, script, k + 1)
  {
    assert t.records == ResumedTo(s.records, script, k + 1);
    forall signature ensures signature in t.judged <==>
      signature in s.judged
      || exists i :: 0 <= i < k + 1 && i < |s.records| && GivenUp(s.records[i], script) && s.records[i].signature == signature
    {
      if GivenUp(s.records[k], script) && s.records[k].signature == signature { assert signature in t.judged; }
    }
  }

  /**
   * A whole resume, by the ledger's own rules, is a run of this machine, whatever
   * its reads and its sends come to: it leaves every record as `Resumed` says, and
   * gives up on exactly the signatures the statuses, the window, a simulation, the
   * RPC or the tracker tell against.
   */
  lemma {:induction false} ResumeIsRun(s: State, script: Script, k: nat)
    requires s.run.Some? && s.run.value.heard == {} && Indexed(s.records) && TrueOf(s, script) && k <= |s.records|
    ensures IsRun(s, AllSteps(s.records[..k], script)) && ResumedSo(s, Final(s, AllSteps(s.records[..k], script)), script, k)
  {
    if k == 0 {
      assert ResumedTo(s.records, script, 0) == s.records;
    } else {
      ResumeIsRun(s, script, k - 1);
      var front, last := s.records[..k - 1], s.records[k - 1];
      assert s.records[..k][..k - 1] == front;
      var mid := Final(s, AllSteps(front, script));
      assert mid.records[k - 1] == last;
      assert TrueOf(mid, script) by { TrueAfter(s, mid, script, k - 1); }
      OneResumed(mid, k - 1, script);
      RunsJoin(s, AllSteps(front, script), ResumeSteps(last, script));
      ResumedOneMore(s, mid, Final(mid, ResumeSteps(last, script)), script, k - 1);
    }
  }

  lemma TrueAfter(s: State, t: State, script: Script, k: nat)
    requires s.run.Some? && TrueOf(s, script) && ResumedSo(s, t, script, k)
    ensures TrueOf(t, script)
  {
    forall i | 0 <= i < |t.records| && SeenLanded(t.records[i], script.statuses) ensures t.records[i].signature in t.landed {
      assert t.records[i].signature == s.records[i].signature by { ResumeOutcomeIs(s.records[i], script); }
      assert SeenLanded(s.records[i], script.statuses);
    }
  }

  function TakeInSteps(record: TxRecord, net: Net): seq<Event> { [Persist] + SendSteps(record, net) }

  /** One message of the worker's: stored, then sent. */
  ghost predicate TookIn(s: State, t: State, net: Net)
    requires s.run.Some? && s.run.value.queue != []
  {
    var record := s.run.value.queue[0];
    var outcome := SendOutcome(record, net);
    && t.records == s.records + [After(record, outcome)]
    && t.run.Some? && t.run.value.queue == s.run.value.queue[1..]
    && t.run.value.heard == s.run.value.heard + (if outcome.Aborted? then {} else {|s.records|})
    && t.judged == s.judged + (if outcome.Expired? || outcome.Errored? then {record.signature} else {})
    && s.landed <= t.landed && t.target == s.target && t.child == s.child && t.reservation == s.reservation
  }

  lemma TakeInIsRun(s: State, net: Net)
    requires s.run.Some? && s.run.value.queue != [] && Fresh(s.run.value.queue, |s.records|) && |s.records| !in s.run.value.heard
    ensures var steps := TakeInSteps(s.run.value.queue[0], net); IsRun(s, steps) && TookIn(s, Final(s, steps), net)
  {
    var record, s1 := s.run.value.queue[0], Next(s, Persist);
    OneStep(s, Persist);
    SendIsRun(s1, |s.records|, net);
    RunsJoin(s, [Persist], SendSteps(record, net));
    assert s1.records[|s.records| := After(record, SendOutcome(record, net))] == s.records + [After(record, SendOutcome(record, net))];
  }

  function WorkerSteps(signed: seq<TxRecord>, script: Script): seq<Event> {
    if signed == [] then []
    else
      var last := signed[|signed| - 1];
      WorkerSteps(signed[..|signed| - 1], script) + TakeInSteps(last, script.nets(last.unit))
  }

  ghost predicate TookInSo(s: State, t: State, script: Script, k: nat) {
    && s.run.Some? && t.run.Some? && k <= |s.run.value.queue| && t.run.value.queue == s.run.value.queue[k..]
    && TakenIn(s.records, t.records, s.run.value.queue, k, script)
    && (forall unit :: unit in t.run.value.heard ==> unit < |t.records|)
    && s.landed <= t.landed && s.judged <= t.judged && t.target == s.target
  }

  lemma NothingTaken(s: State, script: Script)
    requires s.run.Some? && forall unit :: unit in s.run.value.heard ==> unit < |s.records|
    ensures WorkerSteps(s.run.value.queue[..0], script) == [] && IsRun(s, []) && Final(s, []) == s && TookInSo(s, s, script, 0)
  {
  }

  lemma TookInMore(s: State, mid: State, t: State, script: Script, k: nat)
    requires TookInSo(s, mid, script, k) && k < |s.run.value.queue|
    requires TookIn(mid, t, script.nets(s.run.value.queue[k].unit))
    ensures TookInSo(s, t, script, k + 1)
  {
    var queue := s.run.value.queue;
    assert queue[k..][0] == queue[k] && queue[k..][1..] == queue[k + 1..];
    TakenInMore(s.records, mid.records, queue, k, script);
  }

  lemma WorkerStepsMore(signed: seq<TxRecord>, script: Script, k: nat)
    requires k < |signed|
    ensures WorkerSteps(signed[..k + 1], script)
         == WorkerSteps(signed[..k], script) + TakeInSteps(signed[k], script.nets(signed[k].unit))
  {
    assert signed[..k + 1][..k] == signed[..k];
  }

  lemma WorkerTakesNext(s: State, mid: State, script: Script, k: nat)
    requires TookInSo(s, mid, script, k) && k < |s.run.value.queue| && Fresh(s.run.value.queue, |s.records|)
    ensures var steps := TakeInSteps(s.run.value.queue[k], script.nets(s.run.value.queue[k].unit));
      IsRun(mid, steps) && TookInSo(s, Final(mid, steps), script, k + 1)
  {
    var queue := s.run.value.queue;
    var net := script.nets(queue[k].unit);
    assert mid.run.value.queue[0] == queue[k];
    TakeInIsRun(mid, net);
    TookInMore(s, mid, Final(mid, TakeInSteps(queue[k], net)), script, k);
  }

  ghost predicate WorkerRuns(s: State, script: Script, k: nat)
    requires s.run.Some? && k <= |s.run.value.queue|
  {
    var steps := WorkerSteps(s.run.value.queue[..k], script);
    IsRun(s, steps) && TookInSo(s, Final(s, steps), script, k)
  }

  lemma WorkerRunsOn(s: State, script: Script, k: nat)
    requires s.run.Some? && k < |s.run.value.queue| && Fresh(s.run.value.queue, |s.records|) && WorkerRuns(s, script, k)
    ensures WorkerRuns(s, script, k + 1)
  {
    var record := s.run.value.queue[k];
    var front, more := WorkerSteps(s.run.value.queue[..k], script), TakeInSteps(record, script.nets(record.unit));
    WorkerTakesNext(s, Final(s, front), script, k);
    WorkerStepsMore(s.run.value.queue, script, k);
    RunsJoin(s, front, more);
  }

  /** And so is a worker's pass: it stores and sends its first `k` messages as the ledger does. */
  lemma {:induction false} WorkerIsRun(s: State, script: Script, k: nat)
    requires s.run.Some? && Fresh(s.run.value.queue, |s.records|) && k <= |s.run.value.queue|
    requires forall unit :: unit in s.run.value.heard ==> unit < |s.records|
    ensures WorkerRuns(s, script, k)
  {
    if k == 0 {
      NothingTaken(s, script);
    } else {
      WorkerIsRun(s, script, k - 1);
      WorkerRunsOn(s, script, k - 1);
    }
  }

  /** What a state keeps for good: target, hand-off, refusal, what landed and what was given up on. */
  ghost predicate Kept(s: State, t: State) {
    && (s.target.Some? ==> t.target == s.target) && (s.child.Some? ==> t.child == s.child)
    && (s.refused ==> t.refused) && s.landed <= t.landed && s.judged <= t.judged
  }

  lemma StepFreezes(s: State, e: Event)
    requires Enabled(s, e)
    ensures Kept(s, Next(s, e))
  {
  }

  lemma {:induction false} Frozen(s: State, events: seq<Event>)
    requires IsRun(s, events)
    ensures Kept(s, Final(s, events))
    decreases |events|
  {
    if events != [] {
      StepFreezes(s, events[0]);
      Frozen(Next(s, events[0]), events[1..]);
    }
  }

  /** Nothing is left to assign: the request is over, or every node of its fill is on a record. */
  ghost predicate UsedUp(s: State) {
    s.lapsed || (s.reservation.Some? && forall node :: node in s.reservation.value ==> node in NodesOf(s.records))
  }

  ghost predicate OneJobANode(records: seq<TxRecord>) {
    forall i :: 0 <= i < |records| ==> |records[i].jobs| == |records[i].nodes|
  }

  ghost predicate FillOk(s: State) {
    && (s.asked.Some? ==> s.target.Some? && s.asked.value <= s.target.value)
    && (s.reservation.Some? ==> s.target.Some? && Distinct(s.reservation.value) && |s.reservation.value| <= s.target.value)
  }

  /** Nodes on records and on what is signed are distinct nodes of the one fill. */
  ghost predicate NodesOk(s: State) {
    var placed := NodesOf(s.records + Queue(s));
    && OneJobANode(s.records) && OneJobANode(Queue(s)) && Distinct(placed)
    && (if s.reservation.None? then s.records == [] && Queue(s) == []
        else forall node :: node in placed ==> node in s.reservation.value)
  }

  /** An attempt that topped up signed every node of the fill left over. */
  ghost predicate TopUpTakesAll(s: State) {
    s.run.Some? && s.run.value.toppedUp ==>
      s.reservation.Some? && forall node :: node in s.reservation.value ==> node in NodesOf(s.records + Queue(s))
  }

  /** Jobs were handed off, not on a refusal, and nothing given up on has landed. */
  ghost predicate FinalHandOff(s: State) { s.child.Some? && !s.refused && s.landed !! s.judged }

  ghost predicate HandedOff(s: State) {
    && s.target.Some? && s.child.Some? && UsedUp(s) && Queue(s) == []
    && (forall i :: 0 <= i < |s.records| ==> Settled(s, i))
    && ConfirmedJobs(s.records) + s.child.value == s.target.value
  }

  ghost predicate FillInv(s: State) {
    && s.reserves && FillOk(s) && NodesOk(s) && TopUpTakesAll(s)
    && (FinalHandOff(s) ==> HandedOff(s))
    && (s.refused ==> s.child.Some? && s.child == s.target)
  }

  lemma {:induction false} NodesOfConcat(xs: seq<TxRecord>, ys: seq<TxRecord>)
    ensures NodesOf(xs + ys) == NodesOf(xs) + NodesOf(ys)
  {
    if ys == [] {
      assert xs + ys == xs;
    } else {
      assert (xs + ys)[..|xs + ys| - 1] == xs + ys[..|ys| - 1];
      NodesOfConcat(xs, ys[..|ys| - 1]);
    }
  }

  lemma {:induction false} NodesOfSame(xs: seq<TxRecord>, ys: seq<TxRecord>)
    requires |xs| == |ys| && forall i :: 0 <= i < |xs| ==> xs[i].nodes == ys[i].nodes
    ensures NodesOf(xs) == NodesOf(ys)
  {
    if xs != [] { NodesOfSame(xs[..|xs| - 1], ys[..|ys| - 1]); }
  }

  lemma {:induction false} ConfirmedWithinNodes(records: seq<TxRecord>)
    requires OneJobANode(records)
    ensures ConfirmedJobs(records) <= |NodesOf(records)|
  {
    if records != [] { ConfirmedWithinNodes(records[..|records| - 1]); }
  }

  /** The shortfall never cuts the fill: an attempt signs every node left of a live hold. */
  lemma SignsAllUnused(s: State)
    requires FillOk(s) && NodesOk(s) && Queue(s) == [] && s.reservation.Some? && !s.lapsed
    ensures ToSign(s) == Unused(s.reservation.value, NodesOf(s.records))
  {
    assert s.records + Queue(s) == s.records;
    UnusedCount(s.reservation.value, NodesOf(s.records));
    ConfirmedWithinNodes(s.records);
  }

  lemma TopUpKeepsFill(s: State, signed: seq<TxRecord>)
    requires Inv(s) && FillInv(s) && Enabled(s, TopUp(signed))
    ensures FillInv(Next(s, TopUp(signed)))
  {
    var t := Next(s, TopUp(signed));
    var used, nodes := NodesOf(s.records), s.reservation.value;
    assert s.records + Queue(s) == s.records;
    SignsAllUnused(s);
    forall node: string ensures node in ToSign(s) <==> node in nodes && node !in used { UnusedIff(nodes, used, node); }
    UnusedDistinct(nodes, used);
    DistinctJoin(used, ToSign(s));
    NodesOfConcat(s.records, signed);
    assert ToSign(s)[0] in ToSign(s);
    assert !FinalHandOff(t);
  }

  /** A hand-off stands while no record, no verdict and nothing of the fill is taken back. */
  lemma HandedOffStands(s: State, t: State)
    requires FinalHandOff(t) ==> HandedOff(s) && t.child == s.child
    requires t.target == s.target && Queue(t) == Queue(s) && |t.records| == |s.records|
    requires UsedUp(s) ==> UsedUp(t)
    requires HandedOff(s) ==> ConfirmedJobs(t.records) == ConfirmedJobs(s.records)
    requires forall i :: 0 <= i < |s.records| && Settled(s, i) ==> Settled(t, i)
    ensures FinalHandOff(t) ==> HandedOff(t)
  {
    if FinalHandOff(t) {
      forall i | 0 <= i < |t.records| ensures Settled(t, i) { assert Settled(s, i); }
    }
  }

  lemma JudgeKeepsNodes(s: State, unit: nat, outcome: UnitOutcome)
    requires NodesOk(s) && TopUpTakesAll(s) && Enabled(s, Judge(unit, outcome))
    ensures var t := Next(s, Judge(unit, outcome));
      NodesOk(t) && TopUpTakesAll(t) && NodesOf(t.records) == NodesOf(s.records)
  {
    var t := Next(s, Judge(unit, outcome));
    assert Queue(t) == Queue(s);
    NodesOfSame(s.records + Queue(s), t.records + Queue(t));
    NodesOfSame(s.records, t.records);
  }

  lemma JudgeKeepsFill(s: State, unit: nat, outcome: UnitOutcome)
    requires Inv(s) && FillInv(s) && Enabled(s, Judge(unit, outcome))
    ensures FillInv(Next(s, Judge(unit, outcome)))
  {
    var t := Next(s, Judge(unit, outcome));
    JudgeKeepsNodes(s, unit, outcome);
    ConfirmedJobsMark(s.records, unit, t.records[unit]);
    assert s.landed == t.landed && s.judged <= t.judged && s.child == t.child;
    assert t.landed !! t.judged ==> s.landed !! s.judged;
    if FinalHandOff(t) {
      assert Settled(s, unit);
      assert s.records[unit].signature in s.judged;
      assert !outcome.Confirmed?;
      HandedOffStands(s, t);
    }
  }

  lemma HandOffKeepsFill(s: State)
    requires Inv(s) && FillInv(s) && Enabled(s, HandOff)
    ensures FillInv(Next(s, HandOff))
  {
    var t := Next(s, HandOff);
    assert s.records + Queue(s) == s.records;
    if s.child.None? {
      if !s.lapsed && !s.run.value.toppedUp {
        SignsAllUnused(s);
        forall node | node in s.reservation.value ensures node in NodesOf(s.records) {
          UnusedIff(s.reservation.value, NodesOf(s.records), node);
        }
      }
      forall i | 0 <= i < |t.records| ensures Settled(t, i) {
        if i in s.run.value.heard { assert Settled(s, i); }
      }
    } else if FinalHandOff(t) {
      forall i | 0 <= i < |t.records| ensures Settled(t, i) { assert Settled(s, i); }
    }
  }

  /** A refused request has no fill, so no record: what is handed off is the whole target. */
  lemma RefuseKeepsFill(s: State)
    requires Inv(s) && FillInv(s) && Enabled(s, Refuse)
    ensures FillInv(Next(s, Refuse))
  {
    assert ConfirmedJobs(s.records) == 0;
  }

  lemma PersistKeepsFill(s: State)
    requires Inv(s) && FillInv(s) && Enabled(s, Persist)
    ensures FillInv(Next(s, Persist))
  {
    var t := Next(s, Persist);
    assert t.records + Queue(t) == s.records + Queue(s);
    assert !FinalHandOff(t);
  }

  lemma EndKeepsFill(s: State)
    requires Inv(s) && FillInv(s) && Enabled(s, End)
    ensures FillInv(Next(s, End))
  {
    var t := Next(s, End);
    NodesOfConcat(s.records, Queue(s));
    assert t.records + Queue(t) == s.records;
    DistinctPrefix(NodesOf(s.records), NodesOf(Queue(s)));
    assert FinalHandOff(s) ==> Queue(s) == [];
    if FinalHandOff(t) { HandedOffStands(s, t); }
  }

  lemma QuietKeepsNodes(s: State, e: Event)
    requires RunOk(s) && FillOk(s) && NodesOk(s) && TopUpTakesAll(s) && Enabled(s, e)
    requires !e.TopUp? && !e.Judge? && !e.HandOff? && !e.Refuse? && !e.Persist? && !e.End?
    ensures var t := Next(s, e); NodesOk(t) && TopUpTakesAll(t) && FillOk(t)
  {
    var t := Next(s, e);
    assert t.records == s.records && Queue(t) == Queue(s);
  }

  /** The steps that leave records and queue alone. */
  lemma QuietKeepsFill(s: State, e: Event)
    requires Inv(s) && FillInv(s) && Enabled(s, e)
    requires !e.TopUp? && !e.Judge? && !e.HandOff? && !e.Refuse? && !e.Persist? && !e.End?
    ensures FillInv(Next(s, e))
  {
    var t := Next(s, e);
    assert t.records == s.records && Queue(t) == Queue(s);
    QuietKeepsNodes(s, e);
    if FinalHandOff(t) {
      assert s.landed <= t.landed && s.judged == t.judged && s.child == t.child;
      HandedOffStands(s, t);
    }
  }

  lemma FillStepKeeps(s: State, e: Event)
    requires Inv(s) && FillInv(s) && Enabled(s, e)
    ensures FillInv(Next(s, e))
  {
    if e.TopUp? { TopUpKeepsFill(s, e.signed); }
    else if e.Judge? { JudgeKeepsFill(s, e.unit, e.outcome); }
    else if e.HandOff? { HandOffKeepsFill(s); }
    else if e.Refuse? { RefuseKeepsFill(s); }
    else if e.Persist? { PersistKeepsFill(s); }
    else if e.End? { EndKeepsFill(s); }
    else { QuietKeepsFill(s, e); }
  }

  lemma {:induction false} FillRunKeeps(s: State, events: seq<Event>)
    requires Inv(s) && FillInv(s) && IsRun(s, events)
    ensures Inv(Final(s, events)) && FillInv(Final(s, events))
    decreases |events|
  {
    if events != [] {
      StepKeeps(s, events[0]);
      FillStepKeeps(s, events[0]);
      FillRunKeeps(Next(s, events[0]), events[1..]);
    }
  }

  /** Over all attempts, the nodes on the records are distinct nodes of the task's one reservation. */
  lemma NoNodeAssignedTwice(events: seq<Event>)
    requires IsRun(Initial(true), events)
    ensures var s := Final(Initial(true), events);
      && Distinct(NodesOf(s.records))
      && (s.records != [] ==> s.reservation.Some?)
      && (s.reservation.Some? ==> forall node :: node in NodesOf(s.records) ==> node in s.reservation.value)
  {
    FillRunKeeps(Initial(true), events);
    var s := Final(Initial(true), events);
    NodesOfConcat(s.records, Queue(s));
    DistinctPrefix(NodesOf(s.records), NodesOf(Queue(s)));
  }

  lemma NothingToSign(s: State, signed: seq<TxRecord>)
    requires FillInv(s) && (FinalHandOff(s) || s.reservation.None?)
    ensures !Enabled(s, TopUp(signed))
  {
    if s.reservation.Some? && !s.lapsed {
      SignsAllUnused(s);
      if ToSign(s) != [] {
        UnusedIff(s.reservation.value, NodesOf(s.records), ToSign(s)[0]);
        assert false;
      }
    }
  }

  /**
   * Once handed off on a request that is over or used up, and while nothing given
   * up on has landed: the confirmed jobs and the child's limit make up the target,
   * and no attempt the source makes again can sign a node. A hand-off on a refusal
   * leaves the child the whole target; no later attempt signs a node unless the
   * refused request is filled after all.
   */
  lemma HandOffConserves(events: seq<Event>)
    requires IsRun(Initial(true), events)
    requires Final(Initial(true), events).child.Some?
    ensures var s := Final(Initial(true), events);
      && s.target.Some?
      && (!s.refused && s.landed !! s.judged ==>
            ConfirmedJobs(s.records) + s.child.value == s.target.value && forall signed :: !Enabled(s, TopUp(signed)))
      && (s.refused ==> s.child == s.target)
      && (s.refused && s.reservation.None? ==>
            ConfirmedJobs(s.records) == 0 && forall signed :: !Enabled(s, TopUp(signed)))
  {
    FillRunKeeps(Initial(true), events);
    var s := Final(Initial(true), events);
    assert FinalHandOff(s) ==> HandedOff(s);
    if FinalHandOff(s) || s.reservation.None? {
      forall signed ensures !Enabled(s, TopUp(signed)) { NothingToSign(s, signed); }
    }
  }

  /**
   * A task hands off at most once, and for good: whatever attempts, crashes and
   * fills follow, target and hand-off are what they were; and while nothing given
   * up on has landed, not one more job of it is confirmed, so the two tasks together
   * never list past the target.
   */
  lemma OneHandOff(before: seq<Event>, after: seq<Event>)
    requires IsRun(Initial(true), before) && IsRun(Final(Initial(true), before), after)
    requires Final(Initial(true), before).child.Some?
    ensures var s := Final(Initial(true), before); var t := Final(s, after);
      && t.child == s.child && t.target == s.target
      && (!t.refused && t.landed !! t.judged ==> ConfirmedJobs(t.records) == ConfirmedJobs(s.records))
  {
    var s := Final(Initial(true), before);
    HandOffConserves(before);
    Frozen(s, after);
    RunsJoin(Initial(true), before, after);
    HandOffConserves(before + after);
  }

  /** A node of a live fill that is on no record. */
  ghost predicate CanTake(s: State, node: string) {
    s.reservation.Some? && !s.lapsed && node in s.reservation.value && node !in NodesOf(s.records)
  }

  lemma TakeableIsSigned(s: State, node: string)
    requires FillOk(s) && NodesOk(s) && Queue(s) == []
    ensures s.target.Some? && node in ToSign(s) <==> CanTake(s, node)
  {
    if s.reservation.Some? && !s.lapsed {
      SignsAllUnused(s);
      UnusedIff(s.reservation.value, NodesOf(s.records), node);
    }
  }

  lemma OneRecordSigns(s: State)
    requires FillOk(s) && NodesOk(s) && s.reserves && Rested(s) && !s.run.value.toppedUp && ToSign(s) != []
    ensures exists signed :: Enabled(s, TopUp(signed))
  {
    var record := TxRecord(|s.records|, "", 0, SIGNED, Some(""), ToSign(s), ToSign(s));
    assert NodesOf([record]) == ToSign(s) by { assert NodesOf([]) == []; }
    assert SignsExactly(s, [record]);
    assert Enabled(s, TopUp([record]));
  }

  /**
   * An attempt with a verdict on all it loaded, after any hand-off or none, can
   * sign more exactly while the request has a live fill with a node on no record.
   */
  lemma SignsAgainIff(events: seq<Event>)
    requires IsRun(Initial(true), events)
    requires var s := Final(Initial(true), events); Rested(s) && !s.run.value.toppedUp
    ensures var s := Final(Initial(true), events);
      (exists signed :: Enabled(s, TopUp(signed))) <==> exists node :: CanTake(s, node)
  {
    FillRunKeeps(Initial(true), events);
    SignsAgainAt(Final(Initial(true), events));
  }

  lemma SignsAgainAt(s: State)
    requires RunOk(s) && FillOk(s) && NodesOk(s) && s.reserves && Rested(s) && !s.run.value.toppedUp
    ensures (exists signed :: Enabled(s, TopUp(signed))) <==> exists node :: CanTake(s, node)
  {
    forall node: string ensures node in ToSign(s) <==> CanTake(s, node) { TakeableIsSigned(s, node); }
    if ToSign(s) != [] {
      assert CanTake(s, ToSign(s)[0]);
      OneRecordSigns(s);
    }
  }

  function Signed(): TxRecord { TxRecord(0, "signature", 0, SIGNED, Some("bytes"), ["job"], ["node"]) }

  /** An attempt is refused and hands off, its task runs again, and by then the request is filled. */
  function RefusedThenFilled(): seq<Event> { [Begin(1), Ask(1), Refuse, End, Fill(["node"]), Begin(1)] }

  /** The next attempt signs the fill's node, and its transaction lands. */
  function Listed(): seq<Event> {
    [TopUp([Signed()]), Persist, Broadcast(0), Event.Land("signature"), Judge(0, Confirmed("signature", None))]
  }

  function Refilled(): State {
    State(true, Some(1), [], Some(1), Some(["node"]), false, Some(1), true, Some(Run(0, {}, [], false)), {}, {}, {})
  }

  lemma RefilledIsReached()
    ensures IsRun(Initial(true), RefusedThenFilled()) && Final(Initial(true), RefusedThenFilled()) == Refilled()
  {
    var s := State(true, Some(1), [], Some(1), None, false, Some(1), true, Some(Run(0, {}, [], false)), {}, {}, {});
    assert IsRun(Initial(true), [Begin(1), Ask(1), Refuse]) && Final(Initial(true), [Begin(1), Ask(1), Refuse]) == s;
    assert IsRun(s, [End, Fill(["node"]), Begin(1)]) && Final(s, [End, Fill(["node"]), Begin(1)]) == Refilled();
    RunsJoin(Initial(true), [Begin(1), Ask(1), Refuse], [End, Fill(["node"]), Begin(1)]);
  }

  lemma RefilledLists()
    ensures IsRun(Refilled(), Listed())
    ensures var s := Final(Refilled(), Listed());
      s.child == s.target && s.target == Some(1) && ConfirmedJobs(s.records) == 1 && s.landed !! s.judged
  {
    var s := Refilled();
    assert NodesOf([]) == [] && Unused(["node"], []) == ["node"] && ToSign(s) == ["node"] && NodesOf([Signed()]) == ["node"];
    assert Enabled(s, TopUp([Signed()]));
  }

  /** The child gets the whole target and the refused request's job is confirmed besides. */
  lemma RefusalCanOvershoot()
    ensures IsRun(Initial(true), RefusedThenFilled() + Listed())
    ensures var s := Final(Initial(true), RefusedThenFilled() + Listed());
      s.child == s.target && s.target == Some(1) && ConfirmedJobs(s.records) == 1 && s.landed !! s.judged
  {
    RefilledIsReached();
    RefilledLists();
    RunsJoin(Initial(true), RefusedThenFilled(), Listed());
  }
}
