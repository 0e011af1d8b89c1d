/** How long a rescheduled task waits. */
module Retrying {
  import opened Prelude

  const INFLIGHT_RETRY_DEFAULT_MS := 5_000.0

  datatype RetrySignal = RetrySignal(insufficientFunds: bool, negativeBalance: bool)

  datatype Ladder = Ladder(baseMs: real, maxMs: real, multiplier: real)

  function Power(x: real, n: nat): real { if n == 0 then 1.0 else Power(x, n - 1) * x }

  function ComputeCooldown(n: nat, ladder: Ladder): real {
    var raw := ladder.baseMs * Power(ladder.multiplier, n);
    if raw <= ladder.maxMs then raw else ladder.maxMs
  }

  /** A handled error climbs its ladder, the hint a floor; a wait in flight polls at the hint. */
  function RetryDelayMs(retries: nat, hint: Option<real>, signal: Option<RetrySignal>, funds: Ladder,
                        ordinary: Ladder): real {
    if signal.None? then (if hint.Some? then hint.value else INFLIGHT_RETRY_DEFAULT_MS)
    else
      var escalating := ComputeCooldown(retries, if signal.value.insufficientFunds then funds else ordinary);
      if hint.Some? && hint.value > escalating then hint.value else escalating
  }

  predicate Climbs(ladder: Ladder) { 0.0 <= ladder.baseMs && 1.0 <= ladder.multiplier }

  lemma {:induction false} PowerGrows(x: real, n: nat, m: nat)
    requires 1.0 <= x && n <= m
    ensures 1.0 <= Power(x, n) <= Power(x, m)
  {
    if n < m {
      PowerGrows(x, n, m - 1);
      Scale(Power(x, m - 1), 1.0, x);
    } else if n > 0 {
      PowerGrows(x, n - 1, n - 1);
      Scale(Power(x, n - 1), 1.0, x);
    }
  }

  lemma CooldownGrows(n: nat, m: nat, ladder: Ladder)
    requires n <= m && Climbs(ladder)
    ensures ComputeCooldown(n, ladder) <= ComputeCooldown(m, ladder) <= ladder.maxMs
  {
    var fewer, more := Power(ladder.multiplier, n), Power(ladder.multiplier, m);
    PowerGrows(ladder.multiplier, n, m);
    Scale(ladder.baseMs, fewer, more);
  }

  lemma Scale(a: real, x: real, y: real)
    requires 0.0 <= a && x <= y
    ensures a * x <= a * y
  {
  }

  /**
   * The delay in full: a wait in flight is the hint's, or 5 seconds; a handled
   * error starts at its ladder's base, each retry multiplies the wait up to the
   * cap, and the hint is a floor. A funds shortfall has a ladder of its own.
   */
  lemma DelayIs(n: nat, hint: Option<real>, signal: RetrySignal, funds: Ladder, ordinary: Ladder)
    requires Climbs(funds) && Climbs(ordinary) && 0.0 <= funds.maxMs && 0.0 <= ordinary.maxMs
    ensures RetryDelayMs(n, hint, None, funds, ordinary) == if hint.Some? then hint.value else 5_000.0
    ensures var ladder := if signal.insufficientFunds then funds else ordinary;
      var wait := RetryDelayMs(n, None, Some(signal), funds, ordinary);
      && (n == 0 ==> wait == if ladder.baseMs <= ladder.maxMs then ladder.baseMs else ladder.maxMs)
      && RetryDelayMs(n + 1, None, Some(signal), funds, ordinary)
         == (if wait * ladder.multiplier <= ladder.maxMs then wait * ladder.multiplier else ladder.maxMs)
      && RetryDelayMs(n, hint, Some(signal), funds, ordinary) == if hint.Some? && hint.value > wait then hint.value else wait
  {
    var ladder := if signal.insufficientFunds then funds else ordinary;
    CooldownGoesOn(n, ladder);
    assert Power(ladder.multiplier, 0) == 1.0;
    CooldownNotNegative(n, ladder);
  }

  lemma CooldownNotNegative(n: nat, ladder: Ladder)
    requires Climbs(ladder) && 0.0 <= ladder.maxMs
    ensures 0.0 <= ComputeCooldown(n, ladder)
  {
    PowerGrows(ladder.multiplier, n, n);
    Scale(ladder.baseMs, 0.0, Power(ladder.multiplier, n));
  }

  lemma CooldownGoesOn(n: nat, ladder: Ladder)
    requires Climbs(ladder) && 0.0 <= ladder.maxMs
    ensures var wait := ComputeCooldown(n, ladder) * ladder.multiplier;
      ComputeCooldown(n + 1, ladder) == if wait <= ladder.maxMs then wait else ladder.maxMs
  {
    var power, raw := Power(ladder.multiplier, n), ladder.baseMs * Power(ladder.multiplier, n);
    Associates(ladder.baseMs, power, ladder.multiplier);
    assert Power(ladder.multiplier, n + 1) == power * ladder.multiplier;
    if raw > ladder.maxMs {
      Scale(raw, 1.0, ladder.multiplier);
      Scale(ladder.maxMs, 1.0, ladder.multiplier);
    }
  }

  lemma Associates(a: real, b: real, c: real)
    ensures a * (b * c) == (a * b) * c
  {
  }

  /** More retries never wait less, and no handled error waits beyond the cap and the hint. */
  lemma DelayEscalates(n: nat, m: nat, hint: Option<real>, signal: RetrySignal, funds: Ladder, ordinary: Ladder)
    requires n <= m && Climbs(funds) && Climbs(ordinary)
    ensures RetryDelayMs(n, hint, Some(signal), funds, ordinary) <= RetryDelayMs(m, hint, Some(signal), funds, ordinary)
    ensures var delay := RetryDelayMs(m, hint, Some(signal), funds, ordinary);
      var cap := if signal.insufficientFunds then funds.maxMs else ordinary.maxMs;
      delay <= cap || hint == Some(delay)
  {
    var ladder := if signal.insufficientFunds then funds else ordinary;
    CooldownGrows(n, m, ladder);
  }
}

/** A LIST attempt: what it is to create, and what it comes to once its units are reconciled. */
module ListRun {
  import opened Prelude
  import opened Reconciliation
  import opened Reservations
  import opened Retrying
  import L = Lifecycle

  datatype Strategy = SIMPLE | SIMPLE_EXTEND | SCHEDULED | INFINITE

  /** How many of the active jobs run a revision. */
  function JobsOf(revisions: seq<nat>, revision: nat): nat {
    if revisions == [] then 0
    else JobsOf(revisions[..|revisions| - 1], revision) + (if revisions[|revisions| - 1] == revision then 1 else 0)
  }

  /** A handed-off limit is kept; a cron firing posts a full set; any other LIST fills its revision up. */
  function ComputeListTarget(limit: Option<nat>, strategy: Strategy, replicas: nat, jobs: seq<nat>, revision: nat): nat {
    if limit.Some? then limit.value
    else if strategy.SCHEDULED? then replicas
    else if replicas > JobsOf(jobs, revision) then replicas - JobsOf(jobs, revision)
    else 0
  }

  lemma {:induction false} JobsOfConcat(xs: seq<nat>, ys: seq<nat>, revision: nat)
    ensures JobsOf(xs + ys, revision) == JobsOf(xs, revision) + JobsOf(ys, revision)
  {
    if ys == [] {
      assert xs + ys == xs;
    } else {
      assert (xs + ys)[..|xs + ys| - 1] == xs + ys[..|ys| - 1];
      JobsOfConcat(xs, ys[..|ys| - 1], revision);
    }
  }

  lemma {:induction false} AllOfRevision(listed: seq<nat>, revision: nat)
    requires forall r :: r in listed ==> r == revision
    ensures JobsOf(listed, revision) == |listed|
  {
    if listed != [] {
      var front := listed[..|listed| - 1];
      assert listed == front + [listed[|listed| - 1]];
      assert listed[|listed| - 1] in listed && forall r :: r in front ==> r in listed;
      AllOfRevision(listed[..|listed| - 1], revision);
    }
  }

  lemma {:induction false} NoneOfRevision(others: seq<nat>, revision: nat)
    requires forall r :: r in others ==> r != revision
    ensures JobsOf(others, revision) == 0
  {
    if others != [] {
      var front := others[..|others| - 1];
      assert others == front + [others[|others| - 1]];
      assert others[|others| - 1] in others && forall r :: r in front ==> r in others;
      NoneOfRevision(others[..|others| - 1], revision);
    }
  }

  /**
   * Listing the target brings the revision to exactly its replicas, or leaves a
   * revision that has more alone; jobs of other revisions change nothing.
   */
  lemma TargetFillsReplicas(strategy: Strategy, replicas: nat, jobs: seq<nat>, others: seq<nat>, revision: nat,
                            listed: seq<nat>)
    requires !strategy.SCHEDULED? && (forall r :: r in listed ==> r == revision) && (forall r :: r in others ==> r != revision)
    requires |listed| == ComputeListTarget(None, strategy, replicas, jobs + others, revision)
    ensures JobsOf(jobs + others + listed, revision) == Max(replicas, JobsOf(jobs, revision))
    ensures forall limit :: ComputeListTarget(Some(limit), strategy, replicas, jobs, revision) == limit
    ensures ComputeListTarget(None, SCHEDULED, replicas, jobs, revision) == replicas
  {
    JobsOfConcat(jobs, others, revision);
    JobsOfConcat(jobs + others, listed, revision);
    AllOfRevision(listed, revision);
    NoneOfRevision(others, revision);
  }

  datatype Outcome = COMPLETED | FAILED | RETRY | PARKED | ABORTED

  /** The jobs a new LIST takes over, after a cooldown or at once. */
  datatype HandOff = HandOff(missing: nat, backoff: bool)

  /** What the run left behind: its outcome, its hand-off, and its writes to the deployment's status. */
  datatype Conclusion = Conclusion(outcome: Outcome, handOff: Option<HandOff>, writes: seq<L.Write>)

  /**
   * What one attempt comes to. `reserved` is its reserve step's outcome, if it
   * took one; `signal` the error a unit reported, `retries` its earlier retries.
   */
  method Conclude(result: OrchestrateResult, target: nat, draining: bool, reserved: Option<ReserveOutcome>,
                  reserveSignal: RetrySignal, reported: Option<RetrySignal>, retries: nat)
    returns (end: Conclusion)
    requires draining ==> reserved.None?
    ensures var signal := if reserved == Some(TryAgain) then Some(reserveSignal) else reported;
      var banned := signal.Some? && signal.value.negativeBalance;
      var retry := result.retry || signal.Some?;
      var goesOn := !result.aborted && !draining && reserved != Some(Fatal) && !banned;
      && (end.outcome == ABORTED <==> result.aborted)
      && (end.outcome == FAILED <==> !result.aborted && !draining && (reserved == Some(Fatal) || banned))
      && (end.outcome == RETRY <==> if draining then !result.aborted && result.retry else goesOn && retry)
      && (end.outcome == PARKED <==> goesOn && !retry && reserved == Some(Waiting))
      && (end.handOff.Some? <==>
            goesOn && !retry && target > result.confirmed && reserved.Some? && (reserved.value.Handoff? || reserved.value.Reserved?))
      && (end.writes == [L.TaskFailed] <==> end.outcome == FAILED && reserved == Some(Fatal))
      && (end.writes == [L.BanOwner] <==> end.outcome == FAILED && reserved != Some(Fatal))
      && (end.writes == [L.FundsShort] <==> !draining && end.outcome == RETRY && signal.Some? && signal.value.insufficientFunds)
      && (end.writes == [L.FundsBack] <==> !draining && end.outcome == COMPLETED && retries > 0)
      && (end.writes == [] || |end.writes| == 1)
    ensures end.handOff.Some? ==>
              end.outcome == COMPLETED && end.handOff.value.missing + result.confirmed == target
              && (end.handOff.value.backoff <==> if reserved.value.Handoff? then reserved.value.backoff else result.confirmed == 0)
    ensures draining || result.aborted ==> end.writes == [] && end.handOff.None?
    ensures forall w :: w in end.writes ==> w in {L.TaskFailed, L.BanOwner, L.FundsShort, L.FundsBack}
    ensures L.BanOwner in end.writes ==> end.outcome == FAILED && end.writes == [L.BanOwner]
    ensures L.FundsShort in end.writes ==> end.outcome == RETRY
  {
    if result.aborted { return Conclusion(ABORTED, None, []); }
    if draining { return Conclusion(if result.retry then RETRY else COMPLETED, None, []); }
    if reserved == Some(Fatal) { return Conclusion(FAILED, None, [L.TaskFailed]); }
    var signal := reported;
    if reserved == Some(TryAgain) { signal := Some(reserveSignal); }
    if signal.Some? && signal.value.negativeBalance { return Conclusion(FAILED, None, [L.BanOwner]); }
    if result.retry || signal.Some? {
      return Conclusion(RETRY, None, if signal.Some? && signal.value.insufficientFunds then [L.FundsShort] else []);
    }
    if reserved == Some(Waiting) { return Conclusion(PARKED, None, []); }
    var handOff := None;
    if target > result.confirmed && reserved.Some? && (reserved.value.Handoff? || reserved.value.Reserved?) {
      var backoff := if reserved.value.Handoff? then reserved.value.backoff else result.confirmed == 0;
      handOff := Some(HandOff(target - result.confirmed, backoff));
    }
    end := Conclusion(COMPLETED, handOff, if retries > 0 then [L.FundsBack] else []);
  }
}
