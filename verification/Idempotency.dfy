/**
 * The idempotency layer in front of the Credit Manager (CM): the key of one
 * posting, the reading of a failed call, and the walk that re-posts only the
 * expired tail of a batch under the next epoch's key.
 */
module Keys {

  const MAX_IDEMPOTENCY_EPOCH: nat := 3

  const DIGITS := "0123456789"

  /** A number as a template string renders it. */
  function Decimal(n: nat): (s: string)
    ensures s != [] && ':' !in s
  {
    if n < 10 then [DIGITS[n]] else Decimal(n / 10) + [DIGITS[n % 10]]
  }

  lemma {:induction false} DecimalInjective(m: nat, n: nat)
    requires Decimal(m) == Decimal(n)
    ensures m == n
    decreases m
  {
    var a, b := Decimal(m), Decimal(n);
    assert a[|a| - 1] == DIGITS[m % 10] && b[|b| - 1] == DIGITS[n % 10];
    assert m % 10 == n % 10;
    assert |a| == 1 <==> m < 10;
    assert |b| == 1 <==> n < 10;
    if m >= 10 {
      assert Decimal(m / 10) == a[..|a| - 1] && Decimal(n / 10) == b[..|b| - 1];
      DecimalInjective(m / 10, n / 10);
    }
  }

  function BuildIdempotencyKey(taskId: string, unit: string, epoch: nat): string {
    taskId + ":" + unit + ":" + Decimal(epoch)
  }

  /** What a key is rendered from: durable, reclaim-stable identity, and the epoch. */
  datatype Key = Key(taskId: string, unit: string, epoch: nat)

  function Render(key: Key): string { BuildIdempotencyKey(key.taskId, key.unit, key.epoch) }

  /** The first colon of a string splits it in one way only. */
  lemma SplitAtFirstColon(a: string, b: string, c: string, d: string)
    requires ':' !in a && ':' !in c
    requires a + ":" + b == c + ":" + d
    ensures a == c && b == d
  {
    var s := a + ":" + b;
    assert s[|a|] == ':' && s[|c|] == ':';
    assert forall i :: 0 <= i < |a| ==> s[i] != ':';
    assert forall i :: 0 <= i < |c| ==> s[i] != ':';
    assert a == s[..|a|] && c == s[..|c|];
    assert b == s[|a| + 1..] && d == s[|c| + 1..];
  }

  /** The last colon too. */
  lemma SplitAtLastColon(a: string, b: string, c: string, d: string)
    requires ':' !in b && ':' !in d
    requires a + ":" + b == c + ":" + d
    ensures a == c && b == d
  {
    var s := a + ":" + b;
    assert |s| == |a| + 1 + |b| == |c| + 1 + |d|;
    assert s[|a|] == ':' && s[|c|] == ':';
    assert forall i :: |a| < i < |s| ==> s[i] == b[i - |a| - 1] != ':';
    assert forall i :: |c| < i < |s| ==> s[i] == d[i - |c| - 1] != ':';
    assert a == s[..|a|] && c == s[..|c|];
    assert b == s[|a| + 1..] && d == s[|c| + 1..];
  }

  /** Two postings share a key exactly when their epochs agree and their task and unit join alike. */
  lemma KeysAgree(k: Key, l: Key)
    ensures Render(k) == Render(l)
       <==> k.epoch == l.epoch && k.taskId + ":" + k.unit == l.taskId + ":" + l.unit
  {
    if Render(k) == Render(l) {
      SplitAtLastColon(k.taskId + ":" + k.unit, Decimal(k.epoch), l.taskId + ":" + l.unit, Decimal(l.epoch));
      DecimalInjective(k.epoch, l.epoch);
    }
  }

  /** So keys never collide while task ids hold no colon, as hex object ids do not. */
  lemma KeyInjective(k: Key, l: Key)
    requires ':' !in k.taskId && ':' !in l.taskId
    requires Render(k) == Render(l)
    ensures k == l
  {
    KeysAgree(k, l);
    SplitAtFirstColon(k.taskId, k.unit, l.taskId, l.unit);
  }

  /** With colons in a task id two different postings can share one key. */
  lemma ColonsCollide()
    ensures Render(Key("a:b", "c", 0)) == Render(Key("a", "b:c", 0))
  {
    KeysAgree(Key("a:b", "c", 0), Key("a", "b:c", 0));
    assert "a:b" + ":" + "c" == "a" + ":" + "b:c";
  }
}

module ApiErrors {
  import opened Prelude

  datatype Code = Expired | InProgress | PayloadMismatch | Uncoded

  /** What a failed call throws: no definitive response, or an HTTP status with the CM's code and Retry-After. */
  datatype ApiError = NoResponse | Http(statusCode: nat, code: Code, retryAfterMs: Option<nat>)

  datatype Action = RETRY | EXPIRED | FATAL

  /** No answer, a call still in flight and a server's fault may yet land: only a coded EXPIRED is dead. */
  function ClassifyApiError(error: ApiError): (action: Action)
    ensures action == EXPIRED <==> error.Http? && error.code == Expired
    ensures action == FATAL <==>
              error.Http? && (error.code == PayloadMismatch || (error.code == Uncoded && error.statusCode < 500))
  {
    if error.NoResponse? then RETRY
    else if error.code == Expired then EXPIRED
    else if error.code == InProgress then RETRY
    else if error.code == PayloadMismatch then FATAL
    else
      assert error.code.Uncoded?;
      if error.statusCode >= 500 then RETRY else FATAL
  }

  function RetryAfterMsOf(error: ApiError): Option<nat> {
    if error.NoResponse? then None else error.retryAfterMs
  }
}

module Batch {
  import opened Prelude
  import opened Keys
  import opened ApiErrors

  /** The request body of one job. */
  datatype JobBody = JobBody(ipfsHash: string, market: string, timeout: nat, node: Option<string>)

  /** One unit of a batch: the caller's identity for it (a slot, a node or a job address) and its body. */
  datatype BatchUnit = BatchUnit(id: string, body: JobBody)

  datatype Receipt = Receipt(tx: Option<string>, job: Option<string>, run: Option<string>)

  datatype Item = Item(index: int, confirmed: bool, receipt: Receipt)

  datatype Answer = Resolved(items: seq<Item>) | Failed(error: ApiError)

  datatype Confirmation = Confirmation(id: string, receipt: Receipt)

  datatype BatchResult = Ok | Retry(retryAfterMs: Option<nat>) | Fatal

  /** One request to the CM: the bodies sent, and the key they are sent under. */
  datatype Post = Post(key: Key, bodies: seq<JobBody>)

  /** Where a walk stands: about to hear about one epoch's post, or ended. */
  datatype Walk =
    | Posting(epoch: nat, pending: seq<BatchUnit>, confirmed: seq<Confirmation>)
    | Ended(result: BatchResult, confirmed: seq<Confirmation>)

  function Bodies(units: seq<BatchUnit>): (bodies: seq<JobBody>)
    ensures |bodies| == |units|
  {
    seq(|units|, i requires 0 <= i < |units| => units[i].body)
  }

  predicate InRange(item: Item, pending: seq<BatchUnit>) { 0 <= item.index < |pending| }

  /** The units the items call expired, in item order: the next epoch's payload. */
  function ExpiredOf(pending: seq<BatchUnit>, items: seq<Item>): seq<BatchUnit> {
    if items == [] then []
    else
      var last := items[|items| - 1];
      ExpiredOf(pending, items[..|items| - 1])
      + (if InRange(last, pending) && !last.confirmed then [pending[last.index]] else [])
  }

  function ConfirmedOf(pending: seq<BatchUnit>, items: seq<Item>): seq<Confirmation> {
    if items == [] then []
    else
      var last := items[|items| - 1];
      ConfirmedOf(pending, items[..|items| - 1])
      + (if InRange(last, pending) && last.confirmed
         then [Confirmation(pending[last.index].id, last.receipt)] else [])
  }

  function Begin(units: seq<BatchUnit>): Walk {
    if units == [] then Ended(Ok, []) else Posting(0, units, [])
  }

  /** What one answer does to a walk: the step every interleaving of walks is made of. */
  function OnAnswer(w: Walk, maxEpoch: nat, answer: Answer): Walk
    requires w.Posting?
  {
    match answer
    case Failed(error) =>
      Ended(if ClassifyApiError(error) == FATAL then Fatal else Retry(RetryAfterMsOf(error)), w.confirmed)
    case Resolved(items) =>
      var confirmed := w.confirmed + ConfirmedOf(w.pending, items);
      var expired := ExpiredOf(w.pending, items);
      if expired == [] then Ended(Ok, confirmed)
      else if w.epoch >= maxEpoch then Ended(Retry(None), confirmed)
      else Posting(w.epoch + 1, expired, confirmed)
  }

  /** A walk heard to its end: `answers[e]` is the CM's answer to the post of epoch `e`. */
  function Drive(w: Walk, maxEpoch: nat, answers: seq<Answer>): Walk
    decreases if w.Posting? then |answers| - w.epoch else 0
  {
    if w.Ended? || w.epoch >= |answers| then w
    else Drive(OnAnswer(w, maxEpoch, answers[w.epoch]), maxEpoch, answers)
  }

  predicate DistinctIds(units: seq<BatchUnit>) {
    forall i, j :: 0 <= i < j < |units| ==> units[i].id != units[j].id
  }

  predicate DistinctConfirmed(confirmed: seq<Confirmation>) {
    forall i, j :: 0 <= i < j < |confirmed| ==> confirmed[i].id != confirmed[j].id
  }

  ghost function Ids(units: seq<BatchUnit>): set<string> { set u | u in units :: u.id }

  ghost function ConfirmedIds(confirmed: seq<Confirmation>): set<string> { set c | c in confirmed :: c.id }

  ghost predicate Answers(items: seq<Item>, i: int) { exists k :: 0 <= k < |items| && items[k].index == i }

  /** The CM's contract for a resolved batch of `n` units: each index exactly once. */
  ghost predicate Complete(items: seq<Item>, n: nat) {
    && (forall k :: 0 <= k < |items| ==> 0 <= items[k].index < n)
    && (forall k, l :: 0 <= k < l < |items| ==> items[k].index != items[l].index)
    && (forall i :: 0 <= i < n ==> Answers(items, i))
  }

  ghost predicate CompleteAnswer(answer: Answer, n: nat) {
    answer.Resolved? ==> Complete(answer.items, n)
  }

  /** Every answer a walk hears is complete for what that epoch posted. */
  ghost predicate WellAnswered(w: Walk, maxEpoch: nat, answers: seq<Answer>)
    decreases if w.Posting? then |answers| - w.epoch else 0
  {
    w.Posting? && w.epoch < |answers| ==>
      && CompleteAnswer(answers[w.epoch], |w.pending|)
      && WellAnswered(OnAnswer(w, maxEpoch, answers[w.epoch]), maxEpoch, answers)
  }

  /** A unit is on the expired tail exactly when one of its items says expired. */
  lemma {:induction false} ExpiredIff(pending: seq<BatchUnit>, items: seq<Item>, u: BatchUnit)
    ensures u in ExpiredOf(pending, items)
       <==> exists k :: 0 <= k < |items| && InRange(items[k], pending) && !items[k].confirmed && pending[items[k].index] == u
  {
    if items != [] {
      var front := items[..|items| - 1];
      ExpiredIff(pending, front, u);
      assert forall k :: 0 <= k < |front| ==> front[k] == items[k];
    }
  }

  lemma {:induction false} ConfirmedIff(pending: seq<BatchUnit>, items: seq<Item>, c: Confirmation)
    ensures c in ConfirmedOf(pending, items)
       <==> exists k :: 0 <= k < |items| && InRange(items[k], pending) && items[k].confirmed
                        && c == Confirmation(pending[items[k].index].id, items[k].receipt)
  {
    if items != [] {
      var front := items[..|items| - 1];
      ConfirmedIff(pending, front, c);
      assert forall k :: 0 <= k < |front| ==> front[k] == items[k];
    }
  }

  ghost predicate DistinctIndices(items: seq<Item>) {
    forall k, l :: 0 <= k < l < |items| ==> items[k].index != items[l].index
  }

  lemma {:induction false} ExpiredDistinct(pending: seq<BatchUnit>, items: seq<Item>)
    requires DistinctIds(pending) && DistinctIndices(items)
    ensures DistinctIds(ExpiredOf(pending, items))
  {
    if items != [] {
      var front, last := items[..|items| - 1], items[|items| - 1];
      ExpiredDistinct(pending, front);
      if InRange(last, pending) && !last.confirmed {
        var tail := ExpiredOf(pending, front);
        forall i | 0 <= i < |tail| ensures tail[i].id != pending[last.index].id {
          ExpiredIff(pending, front, tail[i]);
        }
        assert ExpiredOf(pending, items) == tail + [pending[last.index]];
      }
    }
  }

  lemma {:induction false} ConfirmedDistinct(pending: seq<BatchUnit>, items: seq<Item>)
    requires DistinctIds(pending) && DistinctIndices(items)
    ensures DistinctConfirmed(ConfirmedOf(pending, items))
  {
    if items != [] {
      var front, last := items[..|items| - 1], items[|items| - 1];
      ConfirmedDistinct(pending, front);
      if InRange(last, pending) && last.confirmed {
        var c := ConfirmedOf(pending, front);
        forall i | 0 <= i < |c| ensures c[i].id != pending[last.index].id {
          ConfirmedIff(pending, front, c[i]);
        }
        assert ConfirmedOf(pending, items) == c + [Confirmation(pending[last.index].id, last.receipt)];
      }
    }
  }

  /** A complete answer splits what was posted: every unit confirmed or expired, none both. */
  lemma AnswerSplits(pending: seq<BatchUnit>, items: seq<Item>)
    requires DistinctIds(pending) && Complete(items, |pending|)
    ensures Ids(pending) == ConfirmedIds(ConfirmedOf(pending, items)) + Ids(ExpiredOf(pending, items))
    ensures ConfirmedIds(ConfirmedOf(pending, items)) !! Ids(ExpiredOf(pending, items))
    ensures forall u :: u in ExpiredOf(pending, items) ==> u in pending
  {
    var con, exp := ConfirmedOf(pending, items), ExpiredOf(pending, items);
    forall u | u in exp ensures u in pending { ExpiredIff(pending, items, u); }
    forall id | id in ConfirmedIds(con) ensures id in Ids(pending) && id !in Ids(exp) {
      var c :| c in con && c.id == id;
      ConfirmedIff(pending, items, c);
      var k :| 0 <= k < |items| && InRange(items[k], pending) && items[k].confirmed
               && c == Confirmation(pending[items[k].index].id, items[k].receipt);
      assert pending[items[k].index] in pending;
      if id in Ids(exp) {
        var u :| u in exp && u.id == id;
        ExpiredIff(pending, items, u);
      }
    }
    forall id | id in Ids(pending) ensures id in ConfirmedIds(con) + Ids(exp) {
      var i :| 0 <= i < |pending| && pending[i].id == id;
      assert Answers(items, i);
      var k :| 0 <= k < |items| && items[k].index == i;
      if items[k].confirmed {
        ConfirmedIff(pending, items, Confirmation(id, items[k].receipt));
        assert Confirmation(id, items[k].receipt) in con;
      } else {
        ExpiredIff(pending, items, pending[i]);
      }
    }
  }

  /** A walk's account of its units: confirmations are distinct and, with what is left, partition the input. */
  ghost predicate Accounts(units: seq<BatchUnit>, confirmed: seq<Confirmation>, left: seq<BatchUnit>) {
    && DistinctIds(left)
    && DistinctConfirmed(confirmed)
    && ConfirmedIds(confirmed) !! Ids(left)
    && Ids(units) == ConfirmedIds(confirmed) + Ids(left)
    && (forall u :: u in left ==> u in units)
  }

  lemma AccountsStep(units: seq<BatchUnit>, confirmed: seq<Confirmation>, pending: seq<BatchUnit>, items: seq<Item>)
    requires Accounts(units, confirmed, pending) && Complete(items, |pending|)
    ensures Accounts(units, confirmed + ConfirmedOf(pending, items), ExpiredOf(pending, items))
  {
    AnswerSplits(pending, items);
    ExpiredDistinct(pending, items);
    ConfirmedDistinct(pending, items);
    var more := ConfirmedOf(pending, items);
    assert ConfirmedIds(confirmed + more) == ConfirmedIds(confirmed) + ConfirmedIds(more);
    forall i, j | 0 <= i < |confirmed| && 0 <= j < |more| ensures confirmed[i].id != more[j].id {
      assert confirmed[i].id in ConfirmedIds(confirmed) && more[j].id in ConfirmedIds(more);
      assert more[j].id in Ids(pending);
    }
  }

  /** The expired tail only ever narrows what was posted. */
  lemma ExpiredNarrows(pending: seq<BatchUnit>, items: seq<Item>)
    ensures forall u :: u in ExpiredOf(pending, items) ==> u in pending
  {
    forall u | u in ExpiredOf(pending, items) ensures u in pending { ExpiredIff(pending, items, u); }
  }

  /** The post after epoch `e` carries just what that epoch's answer called expired, all of it posted before. */
  ghost predicate PostsTail(payloads: seq<seq<BatchUnit>>, answers: seq<Answer>, e: nat) {
    && e + 1 < |payloads| && e < |answers| && answers[e].Resolved?
    && payloads[e + 1] == ExpiredOf(payloads[e], answers[e].items)
    && payloads[e + 1] != []
    && forall u :: u in payloads[e + 1] ==> u in payloads[e]
  }

  /** The payloads of a walk so far, the next one included: all of the set first, then expired tails. */
  ghost predicate Payloads(units: seq<BatchUnit>, payloads: seq<seq<BatchUnit>>, answers: seq<Answer>) {
    && (payloads != [] ==> payloads[0] == units)
    && forall e :: 0 <= e < |payloads| - 1 ==> PostsTail(payloads, answers, e)
  }

  lemma PayloadsGrow(units: seq<BatchUnit>, payloads: seq<seq<BatchUnit>>, answers: seq<Answer>)
    requires payloads != [] && Payloads(units, payloads, answers)
    requires |payloads| <= |answers| && answers[|payloads| - 1].Resolved?
    requires ExpiredOf(payloads[|payloads| - 1], answers[|payloads| - 1].items) != []
    ensures Payloads(units, payloads + [ExpiredOf(payloads[|payloads| - 1], answers[|payloads| - 1].items)], answers)
  {
    var last := |payloads| - 1;
    ExpiredNarrows(payloads[last], answers[last].items);
    var more := payloads + [ExpiredOf(payloads[last], answers[last].items)];
    forall e | 0 <= e < |more| - 1 ensures PostsTail(more, answers, e) {
      if e < last { assert PostsTail(payloads, answers, e); }
    }
  }

  /** One epoch's items sorted into confirmations and the expired tail. */
  method SortItems(pending: seq<BatchUnit>, items: seq<Item>) returns (confirmed: seq<Confirmation>,
                   expired: seq<BatchUnit>)
    ensures confirmed == ConfirmedOf(pending, items)
    ensures expired == ExpiredOf(pending, items)
  {
    confirmed, expired := [], [];
    for k := 0 to |items|
      invariant confirmed == ConfirmedOf(pending, items[..k])
      invariant expired == ExpiredOf(pending, items[..k])
    {
      var item := items[k];
      assert items[..k + 1][..k] == items[..k];
      if !InRange(item, pending) { continue; }
      if item.confirmed {
        confirmed := confirmed + [Confirmation(pending[item.index].id, item.receipt)];
      } else {
        expired := expired + [pending[item.index]];
      }
    }
    assert items[..|items|] == items;
  }

  /**
   * Drive a frozen set of units through the CM. `answers` is what the CM answers
   * to the post of each epoch; `posts` logs each post made, as key and bodies,
   * and `left` is what the walk leaves unconfirmed.
   */
  method RunIdempotentBatch(taskId: string, op: string, maxEpoch: nat, units: seq<BatchUnit>, answers: seq<Answer>)
    returns (result: BatchResult, confirmed: seq<Confirmation>, posts: seq<Post>,
             ghost payloads: seq<seq<BatchUnit>>, ghost left: seq<BatchUnit>)
    requires |answers| == maxEpoch + 1
    ensures Drive(Begin(units), maxEpoch, answers) == Ended(result, confirmed)
    ensures |posts| == |payloads| <= maxEpoch + 1 && (posts == [] <==> units == [])
    ensures forall e :: 0 <= e < |posts| ==> posts[e] == Post(Key(taskId, op, e), Bodies(payloads[e]))
    ensures Payloads(units, payloads, answers)
    ensures DistinctIds(units) && WellAnswered(Begin(units), maxEpoch, answers) ==>
              Accounts(units, confirmed, left) && (result.Ok? <==> left == [])
    ensures forall e :: 0 <= e < |posts| - 1 ==> answers[e].Resolved?
    ensures posts == [] ==> result == Ok
    ensures posts != [] ==>
              match answers[|posts| - 1]
              case Resolved(_) => if left == [] then result == Ok else |posts| == maxEpoch + 1 && result == Retry(None)
              case Failed(error) =>
                result == match error
                          case NoResponse => Retry(None)
                          case Http(statusCode, code, after) =>
                            if code == PayloadMismatch || (code == Uncoded && statusCode < 500) then Fatal else Retry(after)
  {
    confirmed, posts, payloads, left := [], [], [], units;
    if |units| == 0 { return Ok, confirmed, posts, payloads, left; }
    var pending := units;
    ghost var whole := Drive(Begin(units), maxEpoch, answers);
    ghost var trusted := DistinctIds(units) && WellAnswered(Begin(units), maxEpoch, answers);
    for epoch := 0 to maxEpoch + 1
      invariant left == pending != []
      invariant |posts| == |payloads| == epoch
      invariant forall e :: 0 <= e < epoch ==> answers[e].Resolved?
      invariant epoch <= maxEpoch ==> whole == Drive(Posting(epoch, pending, confirmed), maxEpoch, answers)
      invariant epoch > maxEpoch ==> whole == Ended(Retry(None), confirmed)
      invariant Payloads(units, payloads + [pending], answers)
      invariant forall e :: 0 <= e < epoch ==> posts[e] == Post(Key(taskId, op, e), Bodies(payloads[e]))
      invariant trusted ==> Accounts(units, confirmed, pending)
      invariant trusted && epoch <= maxEpoch ==> WellAnswered(Posting(epoch, pending, confirmed), maxEpoch, answers)
    {
      posts, payloads := posts + [Post(Key(taskId, op, epoch), Bodies(pending))], payloads + [pending];

      if answers[epoch].Failed? {
        var error := answers[epoch].error;
        result := if ClassifyApiError(error) == FATAL then Fatal else Retry(RetryAfterMsOf(error));
        return;
      }

      var items := answers[epoch].items;
      var landed, expired := SortItems(pending, items);
      if trusted { AccountsStep(units, confirmed, pending, items); }
      confirmed, left := confirmed + landed, expired;
      if |expired| == 0 { return Ok, confirmed, posts, payloads, left; }
      PayloadsGrow(units, payloads, answers);
      pending := expired;
    }
    result := Retry(None);
    assert Payloads(units, payloads, answers) by {
      var more := payloads + [pending];
      forall e | 0 <= e < |payloads| - 1 ensures PostsTail(payloads, answers, e) { assert PostsTail(more, answers, e); }
      assert payloads != [] ==> payloads[0] == more[0];
    }
  }
}

module Call {
  import opened Prelude
  import opened Keys
  import opened ApiErrors
  import opened Batch

  datatype CallAnswer = Landed(receipt: Receipt) | Threw(error: ApiError)

  datatype CallResult = CallOk(receipt: Receipt) | CallRetry(retryAfterMs: Option<nat>) | CallFatal

  const NOTHING := Receipt(None, None, None)

  /** The CM's own word that the call's transaction is dead. */
  predicate SaysExpired(answer: CallAnswer) {
    answer.Threw? && answer.error.Http? && answer.error.code == Code.Expired
  }

  /** A single call answers as a batch of one unit does: only a coded EXPIRED is an expired item. */
  function AsBatchAnswer(answer: CallAnswer): Answer {
    match answer
    case Landed(receipt) => Resolved([Item(0, true, receipt)])
    case Threw(error) =>
      if ClassifyApiError(error) == EXPIRED then Resolved([Item(0, false, NOTHING)]) else Failed(error)
  }

  function AsBatchAnswers(answers: seq<CallAnswer>): seq<Answer> {
    seq(|answers|, i requires 0 <= i < |answers| => AsBatchAnswer(answers[i]))
  }

  function AsBatchResult(result: CallResult): BatchResult {
    match result
    case CallOk(_) => Ok
    case CallRetry(after) => Retry(after)
    case CallFatal => Fatal
  }

  function AsConfirmed(id: string, result: CallResult): seq<Confirmation> {
    if result.CallOk? then [Confirmation(id, result.receipt)] else []
  }

  lemma OneItem(unit: BatchUnit, item: Item)
    requires item.index == 0
    ensures ExpiredOf([unit], [item]) == if item.confirmed then [] else [unit]
    ensures ConfirmedOf([unit], [item]) == if item.confirmed then [Confirmation(unit.id, item.receipt)] else []
  {
    assert [item][..0] == [];
  }

  lemma OneUnitAnswer(unit: BatchUnit, epoch: nat, maxEpoch: nat, answer: CallAnswer)
    ensures OnAnswer(Posting(epoch, [unit], []), maxEpoch, AsBatchAnswer(answer)) ==
      match answer
      case Landed(receipt) => Ended(Ok, [Confirmation(unit.id, receipt)])
      case Threw(error) =>
        (match error
         case NoResponse => Ended(Retry(None), [])
         case Http(statusCode, code, after) =>
           match code
           case Expired => if epoch >= maxEpoch then Ended(Retry(None), []) else Posting(epoch + 1, [unit], [])
           case InProgress => Ended(Retry(after), [])
           case PayloadMismatch => Ended(Fatal, [])
           case Uncoded => if statusCode >= 500 then Ended(Retry(after), []) else Ended(Fatal, []))
  {
    if answer.Landed? {
      OneItem(unit, Item(0, true, answer.receipt));
    } else {
      OneItem(unit, Item(0, false, NOTHING));
    }
  }

  /**
   * Drive one call through the CM. It is the batch walk over that one unit, so
   * whatever holds of every interleaving of batch walks holds of calls.
   */
  method RunIdempotentCall(taskId: string, unit: string, maxEpoch: nat, answers: seq<CallAnswer>, ghost body: JobBody)
    returns (result: CallResult, keys: seq<Key>)
    requires |answers| == maxEpoch + 1
    ensures Drive(Begin([BatchUnit(unit, body)]), maxEpoch, AsBatchAnswers(answers))
         == Ended(AsBatchResult(result), AsConfirmed(unit, result))
    ensures 1 <= |keys| <= maxEpoch + 1
    ensures forall e :: 0 <= e < |keys| ==> keys[e] == Key(taskId, unit, e)
    ensures forall e :: 0 <= e < |keys| - 1 ==>
              answers[e].Threw? && answers[e].error.Http? && answers[e].error.code == Code.Expired
    ensures match answers[|keys| - 1]
            case Landed(receipt) => result == CallOk(receipt)
            case Threw(error) =>
              match error
              case NoResponse => result == CallRetry(None)
              case Http(statusCode, code, after) =>
                match code
                case Expired => |keys| == maxEpoch + 1 && result == CallRetry(None)
                case InProgress => result == CallRetry(after)
                case PayloadMismatch => result == CallFatal
                case Uncoded => result == if statusCode >= 500 then CallRetry(after) else CallFatal
  {
    keys := [];
    ghost var one := BatchUnit(unit, body);
    ghost var all := AsBatchAnswers(answers);
    ghost var whole := Drive(Begin([one]), maxEpoch, all);
    for epoch := 0 to maxEpoch + 1
      invariant |keys| == epoch
      invariant forall e :: 0 <= e < epoch ==> keys[e] == Key(taskId, unit, e)
      invariant forall e :: 0 <= e < epoch ==> SaysExpired(answers[e])
      invariant epoch <= maxEpoch ==> whole == Drive(Posting(epoch, [one], []), maxEpoch, all)
      invariant epoch > maxEpoch ==> whole == Ended(Retry(None), [])
    {
      OneUnitAnswer(one, epoch, maxEpoch, answers[epoch]);
      keys := keys + [Key(taskId, unit, epoch)];
      if answers[epoch].Landed? {
        return CallOk(answers[epoch].receipt), keys;
      }
      var error := answers[epoch].error;
      var action := ClassifyApiError(error);
      if action == EXPIRED { continue; }
      if action == RETRY { return CallRetry(RetryAfterMsOf(error)), keys; }
      return CallFatal, keys;
    }
    result := CallRetry(None);
  }
}
