/**
 * Confirmation tracking: what a signature status means, when a transaction is
 * declared dead, and what such a verdict is worth on a chain whose height rises
 * and on which a transaction lands only up to its last valid block height.
 */
module Chain {
  import opened Prelude

  type Signature = string

  /** `landings` maps what reached "confirmed" to whether it succeeded (false: it reverted). */
  datatype Chain = Chain(height: nat, landings: map<Signature, bool>)

  datatype ChainEvent = Advance | Land(signature: Signature, success: bool)

  /** `bounds` gives the last valid block height of each broadcast transaction. */
  predicate CanHappen(bounds: map<Signature, nat>, c: Chain, e: ChainEvent) {
    e.Land? ==> e.signature in bounds && e.signature !in c.landings && c.height <= bounds[e.signature]
  }

  function Happen(c: Chain, e: ChainEvent): Chain {
    match e
    case Advance => c.(height := c.height + 1)
    case Land(signature, success) => c.(landings := c.landings[signature := success])
  }

  predicate IsFuture(bounds: map<Signature, nat>, c: Chain, events: seq<ChainEvent>)
    decreases |events|
  {
    events != [] ==> CanHappen(bounds, c, events[0]) && IsFuture(bounds, Happen(c, events[0]), events[1..])
  }

  function Evolve(c: Chain, events: seq<ChainEvent>): Chain
    decreases |events|
  {
    if events == [] then c else Evolve(Happen(c, events[0]), events[1..])
  }

  /** The chain has not landed the signature and never will. */
  ghost predicate NeverLands(bounds: map<Signature, nat>, c: Chain, signature: Signature) {
    forall events :: IsFuture(bounds, c, events) ==> signature !in Evolve(c, events).landings
  }

  lemma {:induction false} HeightRises(bounds: map<Signature, nat>, c: Chain, events: seq<ChainEvent>)
    requires IsFuture(bounds, c, events)
    ensures c.height <= Evolve(c, events).height
    ensures forall signature :: signature in c.landings ==>
              signature in Evolve(c, events).landings && Evolve(c, events).landings[signature] == c.landings[signature]
    decreases |events|
  {
    if events != [] { HeightRises(bounds, Happen(c, events[0]), events[1..]); }
  }

  lemma {:induction false} PastItsWindow(bounds: map<Signature, nat>, c: Chain, signature: Signature,
                                         events: seq<ChainEvent>)
    requires IsFuture(bounds, c, events)
    requires signature in bounds && bounds[signature] < c.height && signature !in c.landings
    ensures signature !in Evolve(c, events).landings
    decreases |events|
  {
    if events != [] { PastItsWindow(bounds, Happen(c, events[0]), signature, events[1..]); }
  }

  /** A broadcast transaction that has not landed is dead exactly once its window has passed. */
  lemma DeadIffPastWindow(bounds: map<Signature, nat>, c: Chain, signature: Signature)
    requires signature in bounds
    ensures NeverLands(bounds, c, signature) <==> signature !in c.landings && bounds[signature] < c.height
  {
    if signature !in c.landings && bounds[signature] < c.height {
      forall events | IsFuture(bounds, c, events) ensures signature !in Evolve(c, events).landings {
        PastItsWindow(bounds, c, signature, events);
      }
    } else if signature in c.landings {
      assert IsFuture(bounds, c, []) && Evolve(c, []) == c;
    } else {
      var landing := [Land(signature, true)];
      assert IsFuture(bounds, Happen(c, landing[0]), landing[1..]);
      assert Evolve(c, landing) == Evolve(Happen(c, landing[0]), landing[1..]);
      assert IsFuture(bounds, c, landing);
    }
  }
}

module Tracking {
  import opened Prelude
  import opened Chain

  datatype Commitment = AtProcessed | AtConfirmed | AtFinalized

  /** One `getSignatureStatuses` value. */
  datatype SignatureStatus = NotFound | Seen(commitment: Commitment, err: bool)

  datatype Reading = Reading(confirmed: bool, error: bool)

  datatype Outcome = CONFIRMED | EXPIRED | ERROR | ABORTED

  /** An absent status is one whose batch could not be fetched. */
  function ClassifySignatureStatus(status: Option<SignatureStatus>): Reading {
    if status.None? || status.value.NotFound? then Reading(false, false)
    else if status.value.err then Reading(false, true)
    else Reading(!status.value.commitment.AtProcessed?, false)
  }

  function Lookup<V>(m: map<string, V>, key: string): Option<V> { if key in m then Some(m[key]) else None }

  datatype Entry = Entry(signature: Signature, lastValidBlockHeight: nat)

  datatype Settlement = Settlement(signature: Signature, outcome: Outcome)

  /** What one sweep decides about one signature. */
  function Verdict(entry: Entry, height: nat, status: Option<SignatureStatus>): Option<Outcome> {
    var reading := ClassifySignatureStatus(status);
    if reading.error then Some(ERROR)
    else if reading.confirmed then Some(CONFIRMED)
    else if height > entry.lastValidBlockHeight then Some(EXPIRED)
    else None
  }

  function Settlements(entries: seq<Entry>, height: nat, statuses: map<Signature, SignatureStatus>): seq<Settlement> {
    if entries == [] then []
    else
      var last := entries[|entries| - 1];
      var verdict := Verdict(last, height, Lookup(statuses, last.signature));
      Settlements(entries[..|entries| - 1], height, statuses)
      + (if verdict.Some? then [Settlement(last.signature, verdict.value)] else [])
  }

  method EvaluateEntries(entries: seq<Entry>, height: nat, statuses: map<Signature, SignatureStatus>)
    returns (settlements: seq<Settlement>)
    ensures settlements == Settlements(entries, height, statuses)
    ensures forall s :: s in settlements <==> exists entry :: entry in entries && Earns(entry, height, statuses, s)
    ensures forall entry :: entry in entries && entry.lastValidBlockHeight < height ==>
              exists s :: s in settlements && s.signature == entry.signature
  {
    settlements := [];
    for k := 0 to |entries|
      invariant settlements == Settlements(entries[..k], height, statuses)
    {
      var entry := entries[k];
      assert entries[..k + 1][..k] == entries[..k];
      var reading := ClassifySignatureStatus(Lookup(statuses, entry.signature));
      if reading.error {
        settlements := settlements + [Settlement(entry.signature, ERROR)];
        continue;
      }
      if reading.confirmed {
        settlements := settlements + [Settlement(entry.signature, CONFIRMED)];
        continue;
      }
      if height > entry.lastValidBlockHeight {
        settlements := settlements + [Settlement(entry.signature, EXPIRED)];
      }
    }
    assert entries[..|entries|] == entries;
    forall s: Settlement ensures s in settlements <==> exists entry :: entry in entries && Earns(entry, height, statuses, s) {
      SettledIff(entries, height, statuses, s);
    }
    forall entry | entry in entries && entry.lastValidBlockHeight < height
      ensures exists s :: s in settlements && s.signature == entry.signature
    {
      var s := Settlement(entry.signature, Verdict(entry, height, Lookup(statuses, entry.signature)).value);
      assert Earns(entry, height, statuses, s);
      assert s in settlements;
    }
  }

  /**
   * What the statuses and the height say of an entry's signature: an error where
   * one was seen, confirmed where it was seen committed, and otherwise, seen or
   * not, expired once the height is past its window.
   */
  predicate Earns(entry: Entry, height: nat, statuses: map<Signature, SignatureStatus>, s: Settlement) {
    var status := if entry.signature in statuses then statuses[entry.signature] else NotFound;
    && s.signature == entry.signature
    && match s.outcome
       case ERROR => status.Seen? && status.err
       case CONFIRMED => status.Seen? && !status.err && status.commitment in {AtConfirmed, AtFinalized}
       case EXPIRED =>
         entry.lastValidBlockHeight < height && (status.NotFound? || (!status.err && status.commitment == AtProcessed))
       case ABORTED => false
  }

  /** A sweep settles a signature with an outcome exactly when an entry of that signature earns it. */
  lemma {:induction false} SettledIff(entries: seq<Entry>, height: nat, statuses: map<Signature, SignatureStatus>,
                                      s: Settlement)
    ensures s in Settlements(entries, height, statuses)
       <==> exists entry :: entry in entries && Earns(entry, height, statuses, s)
  {
    if entries != [] {
      var front, last := entries[..|entries| - 1], entries[|entries| - 1];
      SettledIff(front, height, statuses, s);
      VerdictIs(last, height, statuses, s);
      assert forall entry :: entry in entries <==> entry in front || entry == last;
    }
  }

  lemma VerdictIs(entry: Entry, height: nat, statuses: map<Signature, SignatureStatus>, s: Settlement)
    ensures s.signature == entry.signature ==>
              (Verdict(entry, height, Lookup(statuses, entry.signature)) == Some(s.outcome) <==> Earns(entry, height, statuses, s))
  {
  }

  /** Whatever was fetched, nothing waits beyond its window. */
  lemma PastItsWindowIsSettled(entry: Entry, height: nat, status: Option<SignatureStatus>)
    requires entry.lastValidBlockHeight < height
    ensures Verdict(entry, height, status).Some?
  {
  }

  /** A status tells the truth about the chain it was read from. */
  predicate Reports(status: SignatureStatus, c: Chain, signature: Signature) {
    if signature !in c.landings then status.NotFound? || (status.commitment.AtProcessed? && !status.err)
    else if c.landings[signature] then status.Seen? && !status.commitment.AtProcessed? && !status.err
    else status.Seen? && status.err
  }

  /**
   * A sweep reads the height first and the statuses after. When the status was
   * fetched, its verdict is what the chain says: confirmed whatever the height,
   * and expired exactly for what has not landed and is past its window, which
   * never lands.
   */
  lemma FetchedVerdictIsSound(bounds: map<Signature, nat>, atHeight: Chain, events: seq<ChainEvent>,
                              entry: Entry, status: SignatureStatus)
    requires entry.signature in bounds && bounds[entry.signature] == entry.lastValidBlockHeight
    requires IsFuture(bounds, atHeight, events)
    requires Reports(status, Evolve(atHeight, events), entry.signature)
    ensures var c := Evolve(atHeight, events);
      var verdict := Verdict(entry, atHeight.height, Some(status));
      && (verdict == Some(CONFIRMED) <==> entry.signature in c.landings && c.landings[entry.signature])
      && (verdict == Some(ERROR) <==> entry.signature in c.landings && !c.landings[entry.signature])
      && (verdict == Some(EXPIRED) <==> entry.signature !in c.landings && entry.lastValidBlockHeight < atHeight.height)
      && (verdict == Some(EXPIRED) ==> NeverLands(bounds, c, entry.signature))
  {
    var c := Evolve(atHeight, events);
    HeightRises(bounds, atHeight, events);
    DeadIffPastWindow(bounds, c, entry.signature);
  }

  /** What a chain could be, given the height and the statuses a sweep holds. */
  ghost predicate Consistent(c: Chain, height: nat, statuses: map<Signature, SignatureStatus>) {
    height <= c.height && forall signature :: signature in statuses ==> Reports(statuses[signature], c, signature)
  }

  /**
   * A status whose batch failed is absent, and past the window the sweep calls
   * it EXPIRED all the same. So at that point the verdict can be trusted exactly
   * when the status was fetched.
   */
  lemma ExpiryTrustedIffFetched(bounds: map<Signature, nat>, entry: Entry, height: nat,
                                statuses: map<Signature, SignatureStatus>, seen: Chain)
    requires entry.signature in bounds && bounds[entry.signature] == entry.lastValidBlockHeight < height
    requires Consistent(seen, height, statuses)
    ensures (forall c :: Consistent(c, height, statuses)
               && Verdict(entry, height, Lookup(statuses, entry.signature)) == Some(EXPIRED)
               ==> NeverLands(bounds, c, entry.signature))
       <==> entry.signature in statuses
  {
    var signature := entry.signature;
    if signature in statuses {
      forall c | Consistent(c, height, statuses) && Verdict(entry, height, Lookup(statuses, signature)) == Some(EXPIRED)
        ensures NeverLands(bounds, c, signature)
      {
        assert Reports(statuses[signature], c, signature);
        DeadIffPastWindow(bounds, c, signature);
      }
    } else {
      var landed := seen.(landings := seen.landings[signature := true]);
      assert Consistent(landed, height, statuses);
      DeadIffPastWindow(bounds, landed, signature);
    }
  }

  /** One confirmed transaction, one failed status batch, one block too many: declared expired. */
  lemma FailedBatchExpiresTheConfirmed()
    ensures var c := Chain(101, map["sig" := true]);
      Consistent(c, 101, map[]) && Verdict(Entry("sig", 100), 101, Lookup(map[], "sig")) == Some(EXPIRED)
  {
  }

  /** What the callers of one sweep are due: each tracked signature's verdict, where it has one. */
  function DueVerdicts(entries: map<Signature, (Entry, nat)>, height: nat,
                       statuses: map<Signature, SignatureStatus>): map<Signature, Outcome> {
    map s | s in entries && Verdict(entries[s].0, height, Lookup(statuses, s)).Some?
      :: Verdict(entries[s].0, height, Lookup(statuses, s)).value
  }

  lemma DueIff(entries: map<Signature, (Entry, nat)>, height: nat, statuses: map<Signature, SignatureStatus>, s: Signature)
    requires s in entries && entries[s].0.signature == s
    ensures s in DueVerdicts(entries, height, statuses)
       <==> exists outcome :: Earns(entries[s].0, height, statuses, Settlement(s, outcome))
    ensures entries[s].0.lastValidBlockHeight < height ==> s in DueVerdicts(entries, height, statuses)
    ensures forall outcome :: Earns(entries[s].0, height, statuses, Settlement(s, outcome)) ==>
              s in DueVerdicts(entries, height, statuses) && DueVerdicts(entries, height, statuses)[s] == outcome
  {
    var entry := entries[s].0;
    forall outcome: Outcome
      ensures Verdict(entry, height, Lookup(statuses, s)) == Some(outcome) <==> Earns(entry, height, statuses, Settlement(s, outcome))
    {
      VerdictIs(entry, height, statuses, Settlement(s, outcome));
    }
    var verdict := Verdict(entry, height, Lookup(statuses, s));
    if verdict.Some? { assert Earns(entry, height, statuses, Settlement(s, verdict.value)); }
  }

  /** The tickets waiting on some signatures. */
  ghost function TicketsOf(entries: map<Signature, (Entry, nat)>, signatures: set<Signature>): set<nat> {
    set s | s in signatures && s in entries :: entries[s].1
  }

  lemma TicketsGrow(entries: map<Signature, (Entry, nat)>, signatures: set<Signature>, s: Signature)
    requires s in entries
    ensures TicketsOf(entries, signatures + {s}) == TicketsOf(entries, signatures) + {entries[s].1}
  {
    var more := TicketsOf(entries, signatures + {s});
    forall t | t in TicketsOf(entries, signatures) + {entries[s].1} ensures t in more {
      if t in TicketsOf(entries, signatures) {
        var r :| r in signatures && r in entries && entries[r].1 == t;
        assert r in signatures + {s};
      } else {
        assert s in signatures + {s};
      }
    }
  }

  /** Of the callers waiting before, exactly those on the signatures done are answered, each with its verdict. */
  ghost predicate AnsweredSo(before: map<Signature, (Entry, nat)>, answered: map<nat, Outcome>, resolved: map<nat, Outcome>,
                             done: set<Signature>, verdicts: map<Signature, Outcome>)
  {
    && (forall t :: t in answered ==> t in resolved && resolved[t] == answered[t])
    && (forall s :: s in done && s in before && s in verdicts ==>
          before[s].1 in resolved && resolved[before[s].1] == verdicts[s])
    && resolved.Keys == answered.Keys + TicketsOf(before, done)
  }

  /** Each signature's ticket is its own, and not answered yet. */
  ghost predicate TicketsApart(before: map<Signature, (Entry, nat)>, answered: map<nat, Outcome>) {
    && (forall s, r :: s in before && r in before && s != r ==> before[s].1 != before[r].1)
    && (forall s :: s in before ==> before[s].1 !in answered)
  }

  lemma AnswerOne(before: map<Signature, (Entry, nat)>, answered: map<nat, Outcome>, resolved: map<nat, Outcome>,
                  done: set<Signature>, verdicts: map<Signature, Outcome>, s: Signature)
    requires AnsweredSo(before, answered, resolved, done, verdicts) && TicketsApart(before, answered)
    requires s in before && s in verdicts
    ensures AnsweredSo(before, answered, resolved[before[s].1 := verdicts[s]], done + {s}, verdicts)
    ensures s in done ==> AnsweredSo(before, answered, resolved, done + {s}, verdicts)
  {
    TicketsGrow(before, done, s);
    if s in done { assert done + {s} == done; }
  }

  lemma NothingDone(before: map<Signature, (Entry, nat)>, answered: map<nat, Outcome>, verdicts: map<Signature, Outcome>)
    ensures before == before - {} && AnsweredSo(before, answered, answered, {}, verdicts)
  {
  }

  ghost predicate AllIn(settlements: seq<Settlement>, k: nat, done: set<Signature>) {
    forall j :: 0 <= j < k && j < |settlements| ==> settlements[j].signature in done
  }

  lemma OneMoreIn(settlements: seq<Settlement>, k: nat, done: set<Signature>)
    requires k < |settlements| && AllIn(settlements, k, done)
    ensures AllIn(settlements, k + 1, done + {settlements[k].signature})
  {
  }

  lemma AllDone(settlements: seq<Settlement>, done: set<Signature>, verdicts: map<Signature, Outcome>)
    requires AllIn(settlements, |settlements|, done) && done <= verdicts.Keys
    requires forall s :: s in verdicts ==> Settlement(s, verdicts[s]) in settlements
    ensures done == verdicts.Keys
  {
    forall s | s in verdicts ensures s in done { assert Settlement(s, verdicts[s]) in settlements; }
  }

  predicate Agrees(s: Settlement, verdicts: map<Signature, Outcome>) {
    s.signature in verdicts && verdicts[s.signature] == s.outcome
  }

  /** The order a sweep walks the entries in: each tracked signature, somewhere. */
  ghost predicate Enumerates(order: seq<Entry>, entries: map<Signature, (Entry, nat)>) {
    && (forall k :: 0 <= k < |order| ==> order[k].signature in entries && entries[order[k].signature].0 == order[k])
    && (forall s :: s in entries ==> entries[s].0 in order)
  }

  lemma SettlementsAreDue(order: seq<Entry>, entries: map<Signature, (Entry, nat)>, height: nat,
                          statuses: map<Signature, SignatureStatus>, s: Settlement)
    requires Enumerates(order, entries)
    requires forall r :: r in entries ==> entries[r].0.signature == r
    ensures s in Settlements(order, height, statuses) <==> Agrees(s, DueVerdicts(entries, height, statuses))
  {
    SettledIff(order, height, statuses, s);
    if s.signature in entries { VerdictIs(entries[s.signature].0, height, statuses, s); }
    forall entry | entry in order ensures entry.signature in entries && entries[entry.signature].0 == entry {
      var k :| 0 <= k < |order| && order[k] == entry;
    }
  }

  /**
   * The process-wide tracker. A ticket is one caller's wait; `resolved` is what
   * its promise was resolved with.
   */
  class Tracker {
    var entries: map<Signature, (Entry, nat)>
    var sweeping: bool
    var resolved: map<nat, Outcome>
    var nextTicket: nat
    ghost var owner: map<nat, Signature>

    /** Tickets are issued once, a waiting ticket is unresolved, and anything waiting is being swept. */
    ghost predicate Valid()
      reads this
    {
      && (forall t :: t in resolved ==> t < nextTicket)
      && (forall t :: t in owner ==> t < nextTicket && t !in resolved)
      && (forall s :: s in entries ==> entries[s].0.signature == s && entries[s].1 in owner && owner[entries[s].1] == s)
      && (entries != map[] ==> sweeping)
    }

    constructor ()
      ensures Valid() && entries == map[] && resolved == map[]
    {
      entries, sweeping, resolved, nextTicket, owner := map[], false, map[], 0, map[];
    }

    /** Wait for a signature. One tracked already is replaced, and its first caller is never answered. */
    method TrackSignature(signature: Signature, lastValidBlockHeight: nat, aborted: bool) returns (ticket: nat)
      requires Valid()
      modifies this
      ensures Valid() && ticket == old(nextTicket) && nextTicket == ticket + 1
      ensures aborted ==> entries == old(entries) && resolved == old(resolved)[ticket := ABORTED]
      ensures !aborted ==> entries == old(entries)[signature := (Entry(signature, lastValidBlockHeight), ticket)]
                           && resolved == old(resolved)
    {
      ticket := nextTicket;
      nextTicket := nextTicket + 1;
      if aborted {
        resolved := resolved[ticket := ABORTED];
        return;
      }
      entries := entries[signature := (Entry(signature, lastValidBlockHeight), ticket)];
      owner := owner[ticket := signature];
      sweeping := true;
    }

    /** Resolve the ticket waiting on a signature, if any; also what an abort does to its own signature. */
    method Settle(signature: Signature, outcome: Outcome)
      requires Valid()
      modifies this
      ensures Valid() && nextTicket == old(nextTicket)
      ensures entries == old(entries) - {signature}
      ensures resolved == if signature in old(entries) then old(resolved)[old(entries)[signature].1 := outcome] else old(resolved)
    {
      if signature !in entries {
        assert entries == entries - {signature};
        return;
      }
      var ticket := entries[signature].1;
      entries := entries - {signature};
      resolved, owner := resolved[ticket := outcome], owner - {ticket};
      if |entries| == 0 { sweeping := false; }
    }

    lemma WaitingApart()
      requires Valid()
      ensures TicketsApart(entries, resolved)
    {
    }

    /** One settlement of a sweep that began with `before` waiting and `answered` answered. */
    method SettleDue(settlement: Settlement, ghost before: map<Signature, (Entry, nat)>, ghost answered: map<nat, Outcome>,
                     ghost done: set<Signature>, ghost verdicts: map<Signature, Outcome>)
      requires Valid() && Agrees(settlement, verdicts) && verdicts.Keys <= before.Keys
      requires entries == before - done && TicketsApart(before, answered)
      requires AnsweredSo(before, answered, resolved, done, verdicts)
      modifies this
      ensures Valid() && nextTicket == old(nextTicket) && entries == before - (done + {settlement.signature})
      ensures AnsweredSo(before, answered, resolved, done + {settlement.signature}, verdicts)
    {
      AnswerOne(before, answered, resolved, done, verdicts, settlement.signature);
      Settle(settlement.signature, settlement.outcome);
      assert before - done - {settlement.signature} == before - (done + {settlement.signature});
    }

    /** Apply a sweep's settlements one by one: each due verdict reaches its ticket, nothing else moves. */
    method SettleAll(settlements: seq<Settlement>, ghost verdicts: map<Signature, Outcome>)
      requires Valid() && verdicts.Keys <= entries.Keys
      requires forall k :: 0 <= k < |settlements| ==> Agrees(settlements[k], verdicts)
      requires forall s :: s in verdicts ==> Settlement(s, verdicts[s]) in settlements
      modifies this
      ensures Valid() && nextTicket == old(nextTicket)
      ensures entries == old(entries) - verdicts.Keys
      ensures AnsweredSo(old(entries), old(resolved), resolved, verdicts.Keys, verdicts)
    {
      ghost var before, answered, done: set<Signature> := entries, resolved, {};
      WaitingApart();
      NothingDone(before, answered, verdicts);
      for k := 0 to |settlements|
        invariant Valid() && nextTicket == old(nextTicket)
        invariant entries == before - done && done <= verdicts.Keys
        invariant AnsweredSo(before, answered, resolved, done, verdicts)
        invariant AllIn(settlements, k, done)
      {
        SettleDue(settlements[k], before, answered, done, verdicts);
        OneMoreIn(settlements, k, done);
        done := done + {settlements[k].signature};
      }
      AllDone(settlements, done, verdicts);
    }

    /**
     * One sweep, its height and statuses fetched: every waiting signature is
     * settled with its verdict, or goes on waiting if it has none. A ticket
     * answered before keeps its answer, and no ticket but those waiting on a
     * settled signature is answered: a replaced one never is.
     */
    method Sweep(order: seq<Entry>, height: nat, statuses: map<Signature, SignatureStatus>)
      requires Valid() && Enumerates(order, entries)
      modifies this
      ensures Valid() && nextTicket == old(nextTicket)
      ensures forall t :: t in old(resolved) ==> t in resolved && resolved[t] == old(resolved)[t]
      ensures var verdicts := DueVerdicts(old(entries), height, statuses);
        && entries == old(entries) - verdicts.Keys
        && (forall s :: s in verdicts ==> old(entries)[s].1 in resolved && resolved[old(entries)[s].1] == verdicts[s])
        && resolved.Keys == old(resolved).Keys + TicketsOf(old(entries), verdicts.Keys)
      ensures forall s :: s in entries ==> height <= entries[s].0.lastValidBlockHeight
      ensures forall s :: s in old(entries) ==>
                (s !in entries <==> exists outcome :: Earns(old(entries)[s].0, height, statuses, Settlement(s, outcome)))
      ensures forall s, outcome :: s in old(entries) && Earns(old(entries)[s].0, height, statuses, Settlement(s, outcome)) ==>
                old(entries)[s].1 in resolved && resolved[old(entries)[s].1] == outcome
    {
      if |entries| == 0 {
        sweeping := false;
        return;
      }
      ghost var verdicts := DueVerdicts(entries, height, statuses);
      var settlements := EvaluateEntries(order, height, statuses);
      forall s: Settlement
        ensures s in settlements <==> Agrees(s, verdicts)
      {
        SettlementsAreDue(order, entries, height, statuses, s);
      }
      forall s | s in verdicts ensures Settlement(s, verdicts[s]) in settlements {
        assert Agrees(Settlement(s, verdicts[s]), verdicts);
      }
      forall s | s in entries
        ensures s in verdicts <==> exists outcome :: Earns(entries[s].0, height, statuses, Settlement(s, outcome))
        ensures entries[s].0.lastValidBlockHeight < height ==> s in verdicts
        ensures forall outcome :: Earns(entries[s].0, height, statuses, Settlement(s, outcome)) ==>
                  s in verdicts && verdicts[s] == outcome
      {
        DueIff(entries, height, statuses, s);
      }
      SettleAll(settlements, verdicts);
    }
  }
}
