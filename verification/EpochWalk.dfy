/**
 * Any number of epoch walks against one Credit Manager, interleaved step by
 * step: posts that arrive late, twice or never, batches that land and resolve
 * when they like, lost responses and crashes.
 */
module EpochWalk {
  import opened Prelude
  import opened Keys
  import opened ApiErrors
  import opened Batch

  /** The task and operation a key belongs to, and the unit set frozen for it. */
  datatype Op = Op(taskId: string, name: string)
  type Plan = map<Op, seq<BatchUnit>>

  /** What the CM keeps under one key; `landed` are the indices whose transaction landed on-chain. */
  datatype Entry = Entry(bodies: seq<JobBody>, landed: set<nat>, verdict: Option<seq<Item>>)

  /** The CM knows a key by its rendering; `KeyInjective` lets the ledger go by what is rendered. */
  type Ledger = map<Key, Entry>

  datatype Walker = Walker(op: Op, maxEpoch: nat, walk: Walk)

  /** `sent` holds every post ever made: the CM may process any of them at any time, more than once. */
  datatype World = World(ledger: Ledger, sent: set<Post>, walkers: map<nat, Walker>)

  datatype Event =
    | Start(w: nat, op: Op, maxEpoch: nat)
    | Send(w: nat)
    | Register(post: Post)
    | Land(key: Key, index: nat)
    | Resolve(key: Key, items: seq<Item>)
    | Reply(w: nat)
    | Lose(w: nat, error: ApiError)
    | Crash(w: nat)

  function PostOf(walker: Walker): Post
    requires walker.walk.Posting?
  {
    Post(Key(walker.op.taskId, walker.op.name, walker.walk.epoch), Bodies(walker.walk.pending))
  }

  /** The CM's answer under a key: a frozen verdict is replayed, and another payload is refused. */
  function CmAnswer(entry: Entry, bodies: seq<JobBody>): Answer {
    if entry.bodies != bodies then Failed(Http(409, PayloadMismatch, None))
    else match entry.verdict
      case None => Failed(Http(409, InProgress, None))
      case Some(items) => Resolved(items)
  }

  predicate Active(s: World, w: nat) { w in s.walkers && s.walkers[w].walk.Posting? }

  /** A verdict is complete and says of each index whether it landed. */
  ghost predicate Truthful(entry: Entry, items: seq<Item>) {
    && Complete(items, |entry.bodies|)
    && forall k :: 0 <= k < |items| ==> (items[k].confirmed <==> items[k].index in entry.landed)
  }

  ghost predicate Enabled(plan: Plan, s: World, e: Event) {
    match e
    case Start(w, op, _) => w !in s.walkers && op in plan
    case Send(w) => Active(s, w)
    case Register(post) => post in s.sent && post.key !in s.ledger
    case Land(key, index) => key in s.ledger && s.ledger[key].verdict.None? && index < |s.ledger[key].bodies|
    case Resolve(key, items) => key in s.ledger && s.ledger[key].verdict.None? && Truthful(s.ledger[key], items)
    case Reply(w) => Active(s, w) && PostOf(s.walkers[w]) in s.sent && PostOf(s.walkers[w]).key in s.ledger
    case Lose(w, error) => Active(s, w)
    case Crash(w) => w in s.walkers
  }

  function Hear(s: World, w: nat, answer: Answer): World
    requires Active(s, w)
  {
    var walker := s.walkers[w];
    s.(walkers := s.walkers[w := walker.(walk := OnAnswer(walker.walk, walker.maxEpoch, answer))])
  }

  ghost function Next(plan: Plan, s: World, e: Event): World
    requires Enabled(plan, s, e)
  {
    match e
    case Start(w, op, maxEpoch) => s.(walkers := s.walkers[w := Walker(op, maxEpoch, Begin(plan[op]))])
    case Send(w) => s.(sent := s.sent + {PostOf(s.walkers[w])})
    case Register(post) => s.(ledger := s.ledger[post.key := Entry(post.bodies, {}, None)])
    case Land(key, index) => s.(ledger := s.ledger[key := s.ledger[key].(landed := s.ledger[key].landed + {index})])
    case Resolve(key, items) => s.(ledger := s.ledger[key := s.ledger[key].(verdict := Some(items))])
    case Reply(w) =>
      var post := PostOf(s.walkers[w]);
      Hear(s, w, CmAnswer(s.ledger[post.key], post.bodies))
    case Lose(w, error) => Hear(s, w, Failed(error))
    case Crash(w) => s.(walkers := s.walkers - {w})
  }

  const EMPTY := World(map[], {}, map[])

  ghost predicate IsRun(plan: Plan, s: World, events: seq<Event>)
    decreases |events|
  {
    events != [] ==> Enabled(plan, s, events[0]) && IsRun(plan, Next(plan, s, events[0]), events[1..])
  }

  ghost function Final(plan: Plan, s: World, events: seq<Event>): World
    requires IsRun(plan, s, events)
    decreases |events|
  {
    if events == [] then s else Final(plan, Next(plan, s, events[0]), events[1..])
  }

  /** The units an epoch of an operation carries, once every earlier epoch has its verdict. */
  function PendingAt(plan: Plan, ledger: Ledger, op: Op, epoch: nat): Option<seq<BatchUnit>>
    requires op in plan
  {
    if epoch == 0 then Some(plan[op])
    else
      var key := Key(op.taskId, op.name, epoch - 1);
      var before := PendingAt(plan, ledger, op, epoch - 1);
      if before.Some? && key in ledger && ledger[key].verdict.Some?
      then Some(ExpiredOf(before.value, ledger[key].verdict.value))
      else None
  }

  function OpOf(key: Key): Op { Op(key.taskId, key.unit) }

  ghost predicate Planned(plan: Plan, ledger: Ledger, post: Post) {
    && OpOf(post.key) in plan
    && var units := PendingAt(plan, ledger, OpOf(post.key), post.key.epoch);
       units.Some? && post.bodies == Bodies(units.value)
  }

  /** Ids are distinct within an operation, and no task id holds a colon. */
  ghost predicate PlanOk(plan: Plan) {
    forall op :: op in plan ==> ':' !in op.taskId && DistinctIds(plan[op])
  }

  ghost predicate Registered(s: World, key: Key) {
    key in s.ledger && exists post :: post in s.sent && post.key == key && post.bodies == s.ledger[key].bodies
  }

  ghost predicate EntryOk(entry: Entry) {
    && (forall i :: i in entry.landed ==> i < |entry.bodies|)
    && (entry.verdict.Some? ==> Truthful(entry, entry.verdict.value))
  }

  ghost predicate WalkerOk(plan: Plan, ledger: Ledger, walker: Walker) {
    walker.walk.Posting? ==>
      walker.op in plan && PendingAt(plan, ledger, walker.op, walker.walk.epoch) == Some(walker.walk.pending)
  }

  ghost predicate Inv(plan: Plan, s: World) {
    && (forall post :: post in s.sent ==> Planned(plan, s.ledger, post))
    && (forall key :: key in s.ledger ==> Registered(s, key) && EntryOk(s.ledger[key]))
    && (forall w :: w in s.walkers ==> WalkerOk(plan, s.ledger, s.walkers[w]))
  }

  /** Verdicts are frozen: what an epoch carries never changes once it is known. */
  ghost predicate Extends(old_: Ledger, new_: Ledger) {
    forall key :: key in old_ ==>
      && key in new_ && new_[key].bodies == old_[key].bodies
      && (old_[key].verdict.Some? ==> new_[key].verdict == old_[key].verdict)
  }

  lemma {:induction false} PendingFrozen(plan: Plan, old_: Ledger, new_: Ledger, op: Op, epoch: nat)
    requires op in plan && Extends(old_, new_)
    requires PendingAt(plan, old_, op, epoch).Some?
    ensures PendingAt(plan, new_, op, epoch) == PendingAt(plan, old_, op, epoch)
  {
    if epoch > 0 { PendingFrozen(plan, old_, new_, op, epoch - 1); }
  }

  lemma ExtendsKeeps(plan: Plan, s: World, ledger: Ledger)
    requires Inv(plan, s) && Extends(s.ledger, ledger)
    ensures forall post :: post in s.sent ==> Planned(plan, ledger, post)
    ensures forall w :: w in s.walkers ==> WalkerOk(plan, ledger, s.walkers[w])
  {
    forall post | post in s.sent ensures Planned(plan, ledger, post) {
      PendingFrozen(plan, s.ledger, ledger, OpOf(post.key), post.key.epoch);
    }
    forall w | w in s.walkers ensures WalkerOk(plan, ledger, s.walkers[w]) {
      var walker := s.walkers[w];
      if walker.walk.Posting? { PendingFrozen(plan, s.ledger, ledger, walker.op, walker.walk.epoch); }
    }
  }

  /** No two posts under one key differ, nor does a post from what the CM holds under its key. */
  lemma SameKeySamePayload(plan: Plan, s: World)
    requires PlanOk(plan) && Inv(plan, s)
    ensures forall p, q :: p in s.sent && q in s.sent && Render(p.key) == Render(q.key) ==> p == q
    ensures forall p :: p in s.sent && p.key in s.ledger ==> s.ledger[p.key].bodies == p.bodies
  {
    forall p, q | p in s.sent && q in s.sent && Render(p.key) == Render(q.key) ensures p == q {
      assert Planned(plan, s.ledger, p) && Planned(plan, s.ledger, q);
      KeyInjective(p.key, q.key);
    }
    forall p | p in s.sent && p.key in s.ledger ensures s.ledger[p.key].bodies == p.bodies {
      assert Registered(s, p.key);
    }
  }

  /** A walker that hears the frozen verdict of its epoch goes on to what the next epoch carries. */
  lemma WalkerHears(plan: Plan, ledger: Ledger, walker: Walker, answer: Answer)
    requires walker.walk.Posting? && WalkerOk(plan, ledger, walker)
    requires var key := PostOf(walker).key;
      answer.Resolved? ==> key in ledger && ledger[key].verdict == Some(answer.items)
    ensures WalkerOk(plan, ledger, walker.(walk := OnAnswer(walker.walk, walker.maxEpoch, answer)))
  {
    var walk := OnAnswer(walker.walk, walker.maxEpoch, answer);
    if walk.Posting? {
      assert walk.pending == ExpiredOf(walker.walk.pending, answer.items);
      assert PendingAt(plan, ledger, walker.op, walker.walk.epoch + 1) == Some(walk.pending);
    }
  }

  lemma HearKeeps(plan: Plan, s: World, w: nat, answer: Answer)
    requires Inv(plan, s) && Active(s, w)
    requires var post := PostOf(s.walkers[w]);
      answer.Resolved? ==> post.key in s.ledger && s.ledger[post.key].verdict == Some(answer.items)
    ensures Inv(plan, Hear(s, w, answer))
  {
    var t := Hear(s, w, answer);
    WalkerHears(plan, s.ledger, s.walkers[w], answer);
    forall v | v in t.walkers ensures WalkerOk(plan, t.ledger, t.walkers[v]) {
      if v != w { assert t.walkers[v] == s.walkers[v]; }
    }
    forall key | key in t.ledger ensures Registered(t, key) { assert Registered(s, key); }
  }

  /** A change of the ledger that only adds registered, sound entries keeps the invariant. */
  lemma LedgerKeeps(plan: Plan, s: World, ledger: Ledger)
    requires Inv(plan, s) && Extends(s.ledger, ledger)
    requires forall key :: key in ledger ==> EntryOk(ledger[key])
    requires forall key :: key in ledger && key !in s.ledger ==> Post(key, ledger[key].bodies) in s.sent
    ensures Inv(plan, s.(ledger := ledger))
  {
    var t := s.(ledger := ledger);
    ExtendsKeeps(plan, s, ledger);
    forall key | key in ledger ensures Registered(t, key) {
      if key in s.ledger {
        assert Registered(s, key);
        var post :| post in s.sent && post.key == key && post.bodies == s.ledger[key].bodies;
        assert post in t.sent;
      }
    }
  }

  /** A start, a post sent and a crash leave the ledger as it is. */
  lemma WalkersKeep(plan: Plan, s: World, e: Event)
    requires Inv(plan, s) && Enabled(plan, s, e) && (e.Start? || e.Send? || e.Crash?)
    ensures Inv(plan, Next(plan, s, e))
  {
    var t := Next(plan, s, e);
    if e.Send? { assert WalkerOk(plan, s.ledger, s.walkers[e.w]); }
    forall key | key in t.ledger ensures Registered(t, key) {
      assert Registered(s, key);
      var post :| post in s.sent && post.key == key && post.bodies == s.ledger[key].bodies;
      assert post in t.sent;
    }
  }

  lemma StepKeeps(plan: Plan, s: World, e: Event)
    requires Inv(plan, s) && Enabled(plan, s, e)
    ensures Inv(plan, Next(plan, s, e))
  {
    var t := Next(plan, s, e);
    if e.Reply? {
      var post := PostOf(s.walkers[e.w]);
      HearKeeps(plan, s, e.w, CmAnswer(s.ledger[post.key], post.bodies));
    } else if e.Lose? {
      HearKeeps(plan, s, e.w, Failed(e.error));
    } else if e.Register? || e.Land? || e.Resolve? {
      LedgerKeeps(plan, s, t.ledger);
    } else {
      WalkersKeep(plan, s, e);
    }
  }

  /** A unit landed under an epoch's key. */
  ghost predicate LandedUnder(plan: Plan, ledger: Ledger, op: Op, epoch: nat, id: string)
    requires op in plan
  {
    var key := Key(op.taskId, op.name, epoch);
    var units := PendingAt(plan, ledger, op, epoch);
    key in ledger && units.Some? && exists i :: i in ledger[key].landed && i < |units.value| && units.value[i].id == id
  }

  ghost predicate IsPlannedLanding(plan: Plan, ledger: Ledger, key: Key, index: nat) {
    && OpOf(key) in plan
    && var units := PendingAt(plan, ledger, OpOf(key), key.epoch);
       units.Some? && index < |units.value| && LandedUnder(plan, ledger, OpOf(key), key.epoch, units.value[index].id)
  }

  /** A truthful verdict keeps a landed unit out of the expired tail. */
  lemma LandedNotExpired(units: seq<BatchUnit>, entry: Entry, index: nat)
    requires DistinctIds(units) && index < |units|
    requires EntryOk(entry) && entry.verdict.Some? && index in entry.landed
    ensures units[index].id !in Ids(ExpiredOf(units, entry.verdict.value))
  {
    var items := entry.verdict.value;
    forall u | u in ExpiredOf(units, items) ensures u.id != units[index].id {
      ExpiredIff(units, items, u);
    }
  }

  ghost predicate EntriesOk(ledger: Ledger) { forall key :: key in ledger ==> EntryOk(ledger[key]) }

  lemma ExpiredKeepsDistinct(units: seq<BatchUnit>, entry: Entry)
    requires DistinctIds(units) && EntryOk(entry) && entry.verdict.Some?
    ensures DistinctIds(ExpiredOf(units, entry.verdict.value))
    ensures Ids(ExpiredOf(units, entry.verdict.value)) <= Ids(units)
  {
    ExpiredDistinct(units, entry.verdict.value);
    ExpiredNarrows(units, entry.verdict.value);
  }

  /** What an epoch carries has distinct ids. */
  lemma {:induction false} EpochDistinct(plan: Plan, ledger: Ledger, op: Op, epoch: nat)
    requires op in plan && DistinctIds(plan[op]) && EntriesOk(ledger)
    requires PendingAt(plan, ledger, op, epoch).Some?
    ensures DistinctIds(PendingAt(plan, ledger, op, epoch).value)
  {
    if epoch > 0 {
      EpochDistinct(plan, ledger, op, epoch - 1);
      ExpiredKeepsDistinct(PendingAt(plan, ledger, op, epoch - 1).value, ledger[Key(op.taskId, op.name, epoch - 1)]);
    }
  }

  /** A later epoch's payload holds none of the units an earlier epoch landed. */
  lemma {:induction false} LandedExcluded(plan: Plan, ledger: Ledger, op: Op, epoch: nat, later: nat, id: string)
    requires op in plan && DistinctIds(plan[op]) && EntriesOk(ledger)
    requires LandedUnder(plan, ledger, op, epoch, id) && epoch < later
    requires PendingAt(plan, ledger, op, later).Some?
    ensures id !in Ids(PendingAt(plan, ledger, op, later).value)
    decreases later
  {
    var entry := ledger[Key(op.taskId, op.name, later - 1)];
    var before := PendingAt(plan, ledger, op, later - 1).value;
    EpochDistinct(plan, ledger, op, later - 1);
    if epoch + 1 < later {
      LandedExcluded(plan, ledger, op, epoch, later - 1, id);
      ExpiredKeepsDistinct(before, entry);
    } else {
      var i :| i in entry.landed && i < |before| && before[i].id == id;
      LandedNotExpired(before, entry, i);
    }
  }

  lemma LandsOnce(plan: Plan, ledger: Ledger, op: Op, e1: nat, e2: nat, id: string)
    requires op in plan && DistinctIds(plan[op]) && EntriesOk(ledger)
    requires LandedUnder(plan, ledger, op, e1, id) && LandedUnder(plan, ledger, op, e2, id)
    ensures e1 == e2
  {
    if e1 < e2 {
      LandedExcluded(plan, ledger, op, e1, e2, id);
    } else if e2 < e1 {
      LandedExcluded(plan, ledger, op, e2, e1, id);
    }
  }

  lemma {:induction false} RunKeeps(plan: Plan, s: World, events: seq<Event>)
    requires PlanOk(plan) && Inv(plan, s) && IsRun(plan, s, events)
    ensures Inv(plan, Final(plan, s, events))
    decreases |events|
  {
    if events != [] {
      StepKeeps(plan, s, events[0]);
      RunKeeps(plan, Next(plan, s, events[0]), events[1..]);
    }
  }

  /** Whatever landed under a key is a unit of a planned post: no landing escapes the account by epochs. */
  lemma LandingIsPlanned(plan: Plan, s: World, key: Key, index: nat)
    requires Inv(plan, s) && key in s.ledger && index in s.ledger[key].landed
    ensures IsPlannedLanding(plan, s.ledger, key, index)
  {
    assert Registered(s, key) && EntryOk(s.ledger[key]);
    var post :| post in s.sent && post.key == key && post.bodies == s.ledger[key].bodies;
    assert Planned(plan, s.ledger, post);
  }

  /**
   * After any run: every key was always posted with one payload, so the CM
   * answers no walker PAYLOAD_MISMATCH; whatever landed is a unit of a planned
   * post; and no unit landed under two keys.
   */
  lemma EveryRunIsSafe(plan: Plan, events: seq<Event>)
    requires PlanOk(plan) && IsRun(plan, EMPTY, events)
    ensures var s := Final(plan, EMPTY, events);
      && (forall p, q :: p in s.sent && q in s.sent && Render(p.key) == Render(q.key) ==> p.bodies == q.bodies)
      && (forall p :: p in s.sent && p.key in s.ledger ==>
           CmAnswer(s.ledger[p.key], p.bodies) != Failed(Http(409, PayloadMismatch, None)))
      && (forall key, index :: key in s.ledger && index in s.ledger[key].landed ==> IsPlannedLanding(plan, s.ledger, key, index))
      && (forall op, e1: nat, e2: nat, id ::
           op in plan && LandedUnder(plan, s.ledger, op, e1, id) && LandedUnder(plan, s.ledger, op, e2, id) ==> e1 == e2)
  {
    RunKeeps(plan, EMPTY, events);
    var s := Final(plan, EMPTY, events);
    SameKeySamePayload(plan, s);
    forall key, index | key in s.ledger && index in s.ledger[key].landed ensures IsPlannedLanding(plan, s.ledger, key, index) {
      LandingIsPlanned(plan, s, key, index);
    }
    forall op, e1: nat, e2: nat, id |
      op in plan && LandedUnder(plan, s.ledger, op, e1, id) && LandedUnder(plan, s.ledger, op, e2, id) ensures e1 == e2
    {
      LandsOnce(plan, s.ledger, op, e1, e2, id);
    }
  }
}

/** What the walkers report: confirmations, over time and across walkers, against what landed. */
module Confirmations {
  import opened Prelude
  import opened Keys
  import opened ApiErrors
  import opened Batch
  import opened EpochWalk

  /** The frozen verdict of an epoch holds this confirmation. */
  ghost predicate ConfirmedUnder(plan: Plan, ledger: Ledger, op: Op, epoch: nat, c: Confirmation) {
    && op in plan
    && var key := Key(op.taskId, op.name, epoch);
       var units := PendingAt(plan, ledger, op, epoch);
       && key in ledger && ledger[key].verdict.Some? && units.Some?
       && c in ConfirmedOf(units.value, ledger[key].verdict.value)
  }

  ghost predicate Backed(plan: Plan, ledger: Ledger, op: Op, c: Confirmation) {
    exists epoch: nat :: ConfirmedUnder(plan, ledger, op, epoch, c)
  }

  /** Every confirmation a walker holds is some epoch's, and with what is pending they account for its units. */
  ghost predicate Accounted(plan: Plan, ledger: Ledger, walker: Walker) {
    && walker.op in plan
    && (forall c :: c in walker.walk.confirmed ==> Backed(plan, ledger, walker.op, c))
    && match walker.walk
       case Posting(_, pending, confirmed) => Accounts(plan[walker.op], confirmed, pending)
       case Ended(result, confirmed) => result == Ok ==> ConfirmedIds(confirmed) == Ids(plan[walker.op])
  }

  ghost predicate AllAccounted(plan: Plan, s: World) {
    forall w :: w in s.walkers ==> Accounted(plan, s.ledger, s.walkers[w])
  }

  /** A verdict once given stays, and so do the confirmations in it. */
  lemma BackedStays(plan: Plan, old_: Ledger, new_: Ledger, op: Op, c: Confirmation)
    requires Extends(old_, new_) && Backed(plan, old_, op, c)
    ensures Backed(plan, new_, op, c)
  {
    var epoch: nat :| ConfirmedUnder(plan, old_, op, epoch, c);
    PendingFrozen(plan, old_, new_, op, epoch);
    assert ConfirmedUnder(plan, new_, op, epoch, c);
  }

  lemma AccountedStays(plan: Plan, old_: Ledger, new_: Ledger, walker: Walker)
    requires Extends(old_, new_) && Accounted(plan, old_, walker)
    ensures Accounted(plan, new_, walker)
  {
    forall c | c in walker.walk.confirmed ensures Backed(plan, new_, walker.op, c) {
      BackedStays(plan, old_, new_, walker.op, c);
    }
  }

  /** A walker that hears the frozen verdict of its epoch takes over that epoch's confirmations, and no others. */
  lemma HearAccounts(plan: Plan, s: World, w: nat, answer: Answer)
    requires PlanOk(plan) && Inv(plan, s) && Active(s, w) && Accounted(plan, s.ledger, s.walkers[w])
    requires var post := PostOf(s.walkers[w]);
      answer.Resolved? ==>
        && post.key in s.ledger && s.ledger[post.key].verdict == Some(answer.items) && s.ledger[post.key].bodies == post.bodies
    ensures Accounted(plan, s.ledger, Hear(s, w, answer).walkers[w])
  {
    var walker := s.walkers[w];
    if answer.Resolved? {
      var key, pending := PostOf(walker).key, walker.walk.pending;
      assert WalkerOk(plan, s.ledger, walker) && Registered(s, key) && EntryOk(s.ledger[key]);
      AccountsStep(plan[walker.op], walker.walk.confirmed, pending, answer.items);
      forall c | c in walker.walk.confirmed + ConfirmedOf(pending, answer.items) ensures Backed(plan, s.ledger, walker.op, c) {
        if c in ConfirmedOf(pending, answer.items) {
          assert ConfirmedUnder(plan, s.ledger, walker.op, walker.walk.epoch, c);
        }
      }
      NoneLeft(plan[walker.op], walker.walk.confirmed + ConfirmedOf(pending, answer.items), ExpiredOf(pending, answer.items));
    }
  }

  lemma NoneLeft(units: seq<BatchUnit>, confirmed: seq<Confirmation>, left: seq<BatchUnit>)
    requires Accounts(units, confirmed, left)
    ensures left == [] ==> ConfirmedIds(confirmed) == Ids(units)
  {
    if left == [] { assert Ids(left) == {}; }
  }

  lemma StepExtends(plan: Plan, s: World, e: Event)
    requires Enabled(plan, s, e)
    ensures Extends(s.ledger, Next(plan, s, e).ledger)
  {
  }

  lemma {:induction false} RunExtends(plan: Plan, s: World, events: seq<Event>)
    requires IsRun(plan, s, events)
    ensures Extends(s.ledger, Final(plan, s, events).ledger)
    decreases |events|
  {
    if events != [] {
      StepExtends(plan, s, events[0]);
      RunExtends(plan, Next(plan, s, events[0]), events[1..]);
    }
  }

  lemma StartAccounts(plan: Plan, ledger: Ledger, op: Op, maxEpoch: nat)
    requires PlanOk(plan) && op in plan
    ensures Accounted(plan, ledger, Walker(op, maxEpoch, Begin(plan[op])))
  {
    assert ConfirmedIds([]) == {};
    if plan[op] == [] { assert Ids(plan[op]) == {}; }
  }

  lemma StepAccounts(plan: Plan, s: World, e: Event)
    requires PlanOk(plan) && Inv(plan, s) && AllAccounted(plan, s) && Enabled(plan, s, e)
    ensures AllAccounted(plan, Next(plan, s, e))
  {
    var t := Next(plan, s, e);
    StepExtends(plan, s, e);
    forall v | v in t.walkers ensures Accounted(plan, t.ledger, t.walkers[v]) {
      if e.Start? && v == e.w { StartAccounts(plan, s.ledger, e.op, e.maxEpoch); }
      else if e.Reply? && v == e.w {
        var post := PostOf(s.walkers[e.w]);
        HearAccounts(plan, s, e.w, CmAnswer(s.ledger[post.key], post.bodies));
      }
      else if e.Lose? && v == e.w { HearAccounts(plan, s, e.w, Failed(e.error)); }
      else { AccountedStays(plan, s.ledger, t.ledger, s.walkers[v]); }
    }
  }

  lemma {:induction false} RunAccounts(plan: Plan, s: World, events: seq<Event>)
    requires PlanOk(plan) && Inv(plan, s) && AllAccounted(plan, s) && IsRun(plan, s, events)
    ensures Inv(plan, Final(plan, s, events)) && AllAccounted(plan, Final(plan, s, events))
    decreases |events|
  {
    if events != [] {
      StepKeeps(plan, s, events[0]);
      StepAccounts(plan, s, events[0]);
      RunAccounts(plan, Next(plan, s, events[0]), events[1..]);
    }
  }

  /** What a truthful verdict confirms has landed, under that epoch's key. */
  lemma ConfirmedHasLanded(plan: Plan, ledger: Ledger, op: Op, epoch: nat, c: Confirmation)
    requires EntriesOk(ledger) && ConfirmedUnder(plan, ledger, op, epoch, c)
    ensures LandedUnder(plan, ledger, op, epoch, c.id)
  {
    var key := Key(op.taskId, op.name, epoch);
    var units, items := PendingAt(plan, ledger, op, epoch).value, ledger[key].verdict.value;
    ConfirmedIff(units, items, c);
    var k :| 0 <= k < |items| && InRange(items[k], units) && items[k].confirmed
             && c == Confirmation(units[items[k].index].id, items[k].receipt);
    var index: nat := items[k].index;
    assert index in ledger[key].landed && units[index].id == c.id;
  }

  /** Two confirmations of one unit are one: the same epoch, the same receipt. */
  lemma OneReceipt(plan: Plan, ledger: Ledger, op: Op, c: Confirmation, d: Confirmation)
    requires PlanOk(plan) && EntriesOk(ledger)
    requires Backed(plan, ledger, op, c) && Backed(plan, ledger, op, d) && c.id == d.id
    ensures c == d
  {
    var e1: nat :| ConfirmedUnder(plan, ledger, op, e1, c);
    var e2: nat :| ConfirmedUnder(plan, ledger, op, e2, d);
    ConfirmedHasLanded(plan, ledger, op, e1, c);
    ConfirmedHasLanded(plan, ledger, op, e2, d);
    LandsOnce(plan, ledger, op, e1, e2, c.id);
    var units, entry := PendingAt(plan, ledger, op, e1).value, ledger[Key(op.taskId, op.name, e1)];
    EpochDistinct(plan, ledger, op, e1);
    assert EntryOk(entry);
    ConfirmedDistinct(units, entry.verdict.value);
  }

  /**
   * Over any run, whenever and by whichever walker of an operation a unit is
   * reported confirmed, it is with the one receipt; and the unit landed, under
   * exactly one epoch's key. A walker that ends ok reports every unit.
   */
  lemma ConfirmationsAgree(plan: Plan, before: seq<Event>, after: seq<Event>, w: nat, v: nat, c: Confirmation, d: Confirmation)
    requires PlanOk(plan) && IsRun(plan, EMPTY, before)
    requires var s := Final(plan, EMPTY, before);
      IsRun(plan, s, after) && w in s.walkers && c in s.walkers[w].walk.confirmed
    requires var s := Final(plan, EMPTY, before); var t := Final(plan, s, after);
      v in t.walkers && t.walkers[v].op == s.walkers[w].op && d in t.walkers[v].walk.confirmed
    requires c.id == d.id
    ensures var s := Final(plan, EMPTY, before); var t := Final(plan, s, after); var op := t.walkers[v].op;
      && c == d && op in plan
      && (exists epoch: nat :: LandedUnder(plan, t.ledger, op, epoch, c.id))
      && (forall e1: nat, e2: nat ::
            LandedUnder(plan, t.ledger, op, e1, c.id) && LandedUnder(plan, t.ledger, op, e2, c.id) ==> e1 == e2)
      && (t.walkers[v].walk.Ended? && t.walkers[v].walk.result == Ok ==>
            ConfirmedIds(t.walkers[v].walk.confirmed) == Ids(plan[op]))
  {
    var s := Final(plan, EMPTY, before);
    var t := Final(plan, s, after);
    RunAccounts(plan, EMPTY, before);
    RunAccounts(plan, s, after);
    RunExtends(plan, s, after);
    assert Accounted(plan, s.ledger, s.walkers[w]) && Accounted(plan, t.ledger, t.walkers[v]);
    var op := t.walkers[v].op;
    BackedStays(plan, s.ledger, t.ledger, op, c);
    InvEntries(plan, t);
    OneReceipt(plan, t.ledger, op, c, d);
    var epoch: nat :| ConfirmedUnder(plan, t.ledger, op, epoch, c);
    ConfirmedHasLanded(plan, t.ledger, op, epoch, c);
    forall e1: nat, e2: nat |
      LandedUnder(plan, t.ledger, op, e1, c.id) && LandedUnder(plan, t.ledger, op, e2, c.id) ensures e1 == e2
    {
      LandsOnce(plan, t.ledger, op, e1, e2, c.id);
    }
  }

  /** Something landed under this epoch's key. */
  predicate EpochLanded(ledger: Ledger, op: Op, epoch: nat) {
    var key := Key(op.taskId, op.name, epoch);
    key in ledger && ledger[key].landed != {}
  }

  /** Whatever an epoch of a one-unit operation carries is that unit. */
  lemma {:induction false} OnlyTheUnit(plan: Plan, ledger: Ledger, op: Op, epoch: nat, unit: BatchUnit)
    requires EntriesOk(ledger) && op in plan && plan[op] == [unit] && PendingAt(plan, ledger, op, epoch).Some?
    requires DistinctIds(plan[op])
    ensures Ids(PendingAt(plan, ledger, op, epoch).value) <= {unit.id}
    decreases epoch
  {
    if epoch > 0 {
      var entry := ledger[Key(op.taskId, op.name, epoch - 1)];
      OnlyTheUnit(plan, ledger, op, epoch - 1, unit);
      EpochDistinct(plan, ledger, op, epoch - 1);
      ExpiredKeepsDistinct(PendingAt(plan, ledger, op, epoch - 1).value, entry);
    }
  }

  lemma LandedIsTheUnit(plan: Plan, s: World, op: Op, epoch: nat, unit: BatchUnit)
    requires PlanOk(plan) && Inv(plan, s) && op in plan && plan[op] == [unit] && EpochLanded(s.ledger, op, epoch)
    ensures LandedUnder(plan, s.ledger, op, epoch, unit.id)
  {
    var key := Key(op.taskId, op.name, epoch);
    var index :| index in s.ledger[key].landed;
    LandingIsPlanned(plan, s, key, index);
    InvEntries(plan, s);
    OnlyTheUnit(plan, s.ledger, op, epoch, unit);
    var units := PendingAt(plan, s.ledger, op, epoch).value;
    assert units[index].id in Ids(units);
  }

  /**
   * A single call, over any re-runs of it by any number of processes: it takes
   * effect under at most one key; and every run that is told a result is told the
   * same, of an effect that happened.
   */
  lemma CallLandsOnce(plan: Plan, events: seq<Event>, op: Op, unit: BatchUnit)
    requires PlanOk(plan) && op in plan && plan[op] == [unit] && IsRun(plan, EMPTY, events)
    ensures var s := Final(plan, EMPTY, events);
      && (forall e1: nat, e2: nat :: EpochLanded(s.ledger, op, e1) && EpochLanded(s.ledger, op, e2) ==> e1 == e2)
      && (forall w, v, c, d ::
            w in s.walkers && v in s.walkers && s.walkers[w].op == op && s.walkers[v].op == op
            && c in s.walkers[w].walk.confirmed && d in s.walkers[v].walk.confirmed ==>
              c == d && c.id == unit.id && exists epoch: nat :: EpochLanded(s.ledger, op, epoch))
  {
    RunAccounts(plan, EMPTY, events);
    var s := Final(plan, EMPTY, events);
    forall e1: nat, e2: nat | EpochLanded(s.ledger, op, e1) && EpochLanded(s.ledger, op, e2) ensures e1 == e2 {
      LandedIsTheUnit(plan, s, op, e1, unit);
      LandedIsTheUnit(plan, s, op, e2, unit);
      LandsOnce(plan, s.ledger, op, e1, e2, unit.id);
    }
    forall w, v, c, d |
      w in s.walkers && v in s.walkers && s.walkers[w].op == op && s.walkers[v].op == op
      && c in s.walkers[w].walk.confirmed && d in s.walkers[v].walk.confirmed
      ensures c == d && c.id == unit.id && exists epoch: nat :: EpochLanded(s.ledger, op, epoch)
    {
      assert Accounted(plan, s.ledger, s.walkers[w]) && Accounted(plan, s.ledger, s.walkers[v]);
      CallReceipt(plan, s, op, unit, c);
      CallReceipt(plan, s, op, unit, d);
      InvEntries(plan, s);
      OneReceipt(plan, s.ledger, op, c, d);
    }
  }

  lemma CallReceipt(plan: Plan, s: World, op: Op, unit: BatchUnit, c: Confirmation)
    requires PlanOk(plan) && Inv(plan, s) && op in plan && plan[op] == [unit] && Backed(plan, s.ledger, op, c)
    ensures c.id == unit.id && exists epoch: nat :: EpochLanded(s.ledger, op, epoch)
  {
    InvEntries(plan, s);
    var epoch: nat :| ConfirmedUnder(plan, s.ledger, op, epoch, c);
    ConfirmedHasLanded(plan, s.ledger, op, epoch, c);
    OnlyTheUnit(plan, s.ledger, op, epoch, unit);
    var units := PendingAt(plan, s.ledger, op, epoch).value;
    var i :| i in s.ledger[Key(op.taskId, op.name, epoch)].landed && i < |units| && units[i].id == c.id;
    assert units[i].id in Ids(units) && EpochLanded(s.ledger, op, epoch);
  }

  lemma InvEntries(plan: Plan, s: World)
    requires Inv(plan, s)
    ensures EntriesOk(s.ledger)
  {
    forall key | key in s.ledger ensures EntryOk(s.ledger[key]) { assert Registered(s, key); }
  }
}

/** A single call, fed what the Credit Manager itself answers under each of its keys. */
module CallSafety {
  import opened Prelude
  import opened Keys
  import opened ApiErrors
  import opened Batch
  import opened Call
  import opened EpochWalk
  import opened Confirmations

  /**
   * The CM's answer to a call under a key it knows: its verdict, once it is frozen,
   * or that the call is in flight, or that the key was posted with another body.
   */
  ghost predicate IsReply(entry: Entry, body: JobBody, answer: CallAnswer) {
    if entry.bodies != [body] then answer.Threw? && answer.error.Http? && answer.error.code == PayloadMismatch
    else match entry.verdict
      case None => answer.Threw? && answer.error.Http? && answer.error.code == InProgress
      case Some(items) =>
        if items != [] && items[0].confirmed then answer == Landed(items[0].receipt)
        else answer.Threw? && answer.error.Http? && answer.error.code == Code.Expired
  }

  /** What a call can hear under a key: the CM's reply, nothing, or an error that says nothing of the key. */
  ghost predicate CanHear(ledger: Ledger, key: Key, body: JobBody, answer: CallAnswer) {
    || (key in ledger && IsReply(ledger[key], body, answer))
    || (answer.Threw? && (answer.error.NoResponse? || answer.error.code == Uncoded))
  }

  ghost predicate Leads(plan: Plan, s: World, t: World) { exists events :: IsRun(plan, s, events) && Final(plan, s, events) == t }

  /** The verdict under this key confirms nothing, and nothing landed under it. */
  ghost predicate FoundDead(ledger: Ledger, key: Key) {
    && key in ledger && ledger[key].verdict.Some? && ledger[key].landed == {}
    && forall item :: item in ledger[key].verdict.value ==> !item.confirmed
  }

  lemma LeadsOn(plan: Plan, s: World, t: World)
    requires PlanOk(plan) && Inv(plan, s) && Leads(plan, s, t)
    ensures Inv(plan, t) && Extends(s.ledger, t.ledger)
  {
    var events :| IsRun(plan, s, events) && Final(plan, s, events) == t;
    RunKeeps(plan, s, events);
    RunExtends(plan, s, events);
  }

  lemma TwoCollide(items: seq<Item>)
    requires forall k :: 0 <= k < |items| ==> 0 <= items[k].index < 1
    ensures DistinctIndices(items) ==> |items| < 2
  {
    if |items| >= 2 { assert items[0].index == 0 == items[1].index; }
  }

  lemma OneItemOnly(items: seq<Item>)
    requires Complete(items, 1)
    ensures |items| == 1 && items == [items[0]] && items[0].index == 0
  {
    assert Answers(items, 0);
    TwoCollide(items);
  }

  lemma ReplyIsTrue(entry: Entry, later: Entry, body: JobBody, answer: CallAnswer)
    requires EntryOk(entry) && EntryOk(later) && later.bodies == entry.bodies && (entry.verdict.Some? ==> later.verdict == entry.verdict)
    requires IsReply(entry, body, answer)
    ensures answer.Threw? && answer.error.Http? && answer.error.code == Code.Expired ==>
              later.verdict.Some? && later.landed == {} && forall item :: item in later.verdict.value ==> !item.confirmed
    ensures answer.Landed? ==> later.landed != {}
  {
    if entry.bodies == [body] && entry.verdict.Some? {
      var items := entry.verdict.value;
      assert Truthful(later, items);
      OneItemOnly(items);
      forall i | i in later.landed ensures items[0].confirmed { assert i == 0; }
      if items[0].confirmed { assert 0 in later.landed; }
    }
  }

  /**
   * A call posts under the next key only over a dead one. `worlds[e]` is when the
   * answer under epoch `e` was given and `t` any time after: with every key but the
   * last answered EXPIRED, as they are of every call that goes on, the frozen
   * verdict of each confirms nothing and nothing landed under it; and a call told
   * that it landed did so under its last key, and under no other.
   */
  lemma NextKeyOnlyOverTheDead(plan: Plan, op: Op, unit: BatchUnit, worlds: seq<World>, answers: seq<CallAnswer>, n: nat, t: World)
    requires PlanOk(plan) && op in plan && plan[op] == [unit] && 0 < n <= |worlds| && n <= |answers|
    requires forall e :: 0 <= e < n ==>
               && Leads(plan, EMPTY, worlds[e]) && Leads(plan, worlds[e], t)
               && CanHear(worlds[e].ledger, Key(op.taskId, op.name, e), unit.body, answers[e])
    requires forall e :: 0 <= e < n - 1 ==>
               answers[e].Threw? && answers[e].error.Http? && answers[e].error.code == Code.Expired
    ensures forall e: nat :: e < n - 1 ==> FoundDead(t.ledger, Key(op.taskId, op.name, e))
    ensures answers[n - 1].Landed? ==> forall e: nat :: EpochLanded(t.ledger, op, e) <==> e == n - 1
  {
    forall e: nat | e < n
      ensures Inv(plan, t)
      ensures e < n - 1 ==> FoundDead(t.ledger, Key(op.taskId, op.name, e))
      ensures answers[e].Landed? ==> EpochLanded(t.ledger, op, e)
    {
      var key := Key(op.taskId, op.name, e);
      LeadsOn(plan, EMPTY, worlds[e]);
      LeadsOn(plan, worlds[e], t);
      InvEntries(plan, worlds[e]);
      InvEntries(plan, t);
      if key in worlds[e].ledger && IsReply(worlds[e].ledger[key], unit.body, answers[e]) {
        ReplyIsTrue(worlds[e].ledger[key], t.ledger[key], unit.body, answers[e]);
      }
    }
    assert Leads(plan, EMPTY, worlds[0]) && Inv(plan, t);
    if answers[n - 1].Landed? {
      forall e: nat | EpochLanded(t.ledger, op, e) ensures e == n - 1 {
        LandedIsTheUnit(plan, t, op, e, unit);
        LandedIsTheUnit(plan, t, op, n - 1, unit);
        LandsOnce(plan, t.ledger, op, e, n - 1, unit.id);
      }
    }
  }

  /**
   * And what a call hears it takes as a walk over its one unit takes the CM's batch
   * answer: it goes on, ends ok with the one receipt, or ends otherwise alike.
   */
  lemma HeardAlike(entry: Entry, unit: BatchUnit, epoch: nat, maxEpoch: nat, answer: CallAnswer)
    requires EntryOk(entry) && IsReply(entry, unit.body, answer)
    ensures var call := OnAnswer(Posting(epoch, [unit], []), maxEpoch, AsBatchAnswer(answer));
      var batch := OnAnswer(Posting(epoch, [unit], []), maxEpoch, CmAnswer(entry, [unit.body]));
      if entry.bodies == [unit.body] && entry.verdict.Some? then call == batch
      else call.Ended? && batch.Ended? && call.confirmed == batch.confirmed == [] && (call.result.Fatal? <==> batch.result.Fatal?)
           && (call.result.Retry? <==> batch.result.Retry?)
  {
    OneUnitAnswer(unit, epoch, maxEpoch, answer);
    if entry.bodies == [unit.body] && entry.verdict.Some? {
      var items := entry.verdict.value;
      OneItemOnly(items);
      OneItem(unit, items[0]);
    }
  }
}
