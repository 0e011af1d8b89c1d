/** Keyset pagination: pages cut by a cursor from the sorted, filtered collection. */
module Pagination {
  import opened Prelude

  /** A document as a query sees it: its id, and the value of the field it is sorted by. */
  datatype Doc = Doc(id: int, value: int)

  datatype Direction = Forward | Backward

  datatype Cursor = Cursor(value: int, id: int, direction: Direction)

  datatype Page = Page(items: seq<Doc>, next: Option<Cursor>, prev: Option<Cursor>, total: nat)

  /** Sorted by value, ties by id, both in one order. */
  predicate Before(a: Doc, b: Doc, asc: bool) {
    if asc then a.value < b.value || (a.value == b.value && a.id < b.id)
    else a.value > b.value || (a.value == b.value && a.id > b.id)
  }

  function CursorOf(doc: Doc, direction: Direction): Cursor { Cursor(doc.value, doc.id, direction) }

  /** Going backward flips the sort; the cursor's own document is on neither side of it. */
  function EffectiveAsc(asc: bool, cursor: Option<Cursor>): bool {
    if cursor.Some? && cursor.value.direction.Backward? then !asc else asc
  }

  predicate PastCursor(doc: Doc, cursor: Cursor, ascending: bool) {
    if ascending then doc.value > cursor.value || (doc.value == cursor.value && doc.id > cursor.id)
    else doc.value < cursor.value || (doc.value == cursor.value && doc.id < cursor.id)
  }

  predicate Selects(cursor: Option<Cursor>, asc: bool, doc: Doc) {
    cursor.Some? ==> PastCursor(doc, cursor.value, EffectiveAsc(asc, cursor))
  }

  /** The documents the caller's own filter matches. */
  function Matching(docs: seq<Doc>, filter: Doc -> bool): seq<Doc> {
    if docs == [] then []
    else
      var last := docs[|docs| - 1];
      Matching(docs[..|docs| - 1], filter) + (if filter(last) then [last] else [])
  }

  /** Of those, the ones past the cursor, if there is one. */
  function Selected(docs: seq<Doc>, cursor: Option<Cursor>, asc: bool): seq<Doc> {
    if docs == [] then []
    else
      var last := docs[|docs| - 1];
      Selected(docs[..|docs| - 1], cursor, asc) + (if Selects(cursor, asc, last) then [last] else [])
  }

  function Insert(sorted: seq<Doc>, doc: Doc, asc: bool): seq<Doc> {
    if sorted == [] then [doc]
    else if Before(sorted[|sorted| - 1], doc, asc) then sorted + [doc]
    else Insert(sorted[..|sorted| - 1], doc, asc) + [sorted[|sorted| - 1]]
  }

  function Sort(docs: seq<Doc>, asc: bool): seq<Doc> {
    if docs == [] then [] else Insert(Sort(docs[..|docs| - 1], asc), docs[|docs| - 1], asc)
  }

  /** What the database answers: the selected documents, sorted, at most `limit` of them. */
  function Find(docs: seq<Doc>, cursor: Option<Cursor>, asc: bool, limit: nat): seq<Doc> {
    var found := Sort(Selected(docs, cursor, asc), EffectiveAsc(asc, cursor));
    found[..if |found| <= limit then |found| else limit]
  }

  function Reversed(docs: seq<Doc>): seq<Doc> { seq(|docs|, i requires 0 <= i < |docs| => docs[|docs| - 1 - i]) }

  /** The page made of what was fetched. */
  function Meta(results: seq<Doc>, limit: nat, total: nat, cursor: Option<Cursor>): Page {
    var more := |results| > limit;
    var items := results[..if more then limit else |results|];
    if items == [] then Page(items, None, None, total)
    else
      var first, last := items[0], items[|items| - 1];
      if cursor.Some? && cursor.value.direction.Backward? then
        Page(items, Some(CursorOf(last, Forward)), if more then Some(CursorOf(first, Backward)) else None, total)
      else
        Page(items, if more then Some(CursorOf(last, Forward)) else None,
             if cursor.Some? then Some(CursorOf(first, Backward)) else None, total)
  }

  /** The page a request answers with, `docs` being what its filter matches. */
  function Answer(docs: seq<Doc>, asc: bool, limit: nat, cursor: Option<Cursor>): Page {
    var found := Find(docs, cursor, asc, limit + 1);
    Meta(if cursor.Some? && cursor.value.direction.Backward? then Reversed(found) else found, limit, |docs|, cursor)
  }

  method BuildPaginationMeta(results: seq<Doc>, limit: nat, total: nat, cursor: Option<Cursor>) returns (page: Page)
    ensures page.items == results[..Min(limit, |results|)] && page.total == total
    ensures var backward := cursor.Some? && cursor.value.direction.Backward?;
      && (page.next.Some? <==> page.items != [] && (|results| > limit || backward))
      && (page.prev.Some? <==> page.items != [] && if backward then |results| > limit else cursor.Some?)
    ensures page.next.Some? ==> page.next.value == CursorOf(page.items[|page.items| - 1], Forward)
    ensures page.prev.Some? ==> page.prev.value == CursorOf(page.items[0], Backward)
  {
    var hasMoreItems := |results| > limit;
    var trimmed := if hasMoreItems then results[..limit] else results;
    var next: Option<Cursor>, prev: Option<Cursor> := None, None;
    if |trimmed| > 0 {
      if cursor.Some? && cursor.value.direction.Backward? {
        next := Some(CursorOf(trimmed[|trimmed| - 1], Forward));
        if hasMoreItems { prev := Some(CursorOf(trimmed[0], Backward)); }
      } else {
        if hasMoreItems { next := Some(CursorOf(trimmed[|trimmed| - 1], Forward)); }
        if cursor.Some? { prev := Some(CursorOf(trimmed[0], Backward)); }
      }
    }
    page := Page(trimmed, next, prev, total);
  }

  method ReverseResults(results: array<Doc>)
    modifies results
    ensures results[..] == Reversed(old(results[..]))
  {
    ghost var before := results[..];
    var low, high := 0, results.Length;
    while high - low > 1
      invariant 0 <= low <= high <= results.Length && low + high == results.Length
      invariant forall k :: 0 <= k < low || high <= k < results.Length ==> results[k] == before[results.Length - 1 - k]
      invariant forall k :: low <= k < high ==> results[k] == before[k]
    {
      high := high - 1;
      results[low], results[high] := results[high], results[low];
      low := low + 1;
    }
  }

  method ExecuteKeysetPagination(docs: seq<Doc>, filter: Doc -> bool, asc: bool, limit: nat, cursor: Option<Cursor>)
    returns (page: Page)
    ensures page == Answer(Matching(docs, filter), asc, limit, cursor)
  {
    var matching := Matching(docs, filter);
    var found := Find(matching, cursor, asc, limit + 1);
    var results := new Doc[|found|](i requires 0 <= i < |found| => found[i]);
    assert results[..] == found;
    if cursor.Some? && cursor.value.direction.Backward? { ReverseResults(results); }
    page := BuildPaginationMeta(results[..], limit, |matching|, cursor);
  }

  // ----- the sorted listing -----

  ghost predicate DistinctIds(docs: seq<Doc>) {
    forall i, j :: 0 <= i < j < |docs| ==> docs[i].id != docs[j].id
  }

  ghost predicate InOrder(docs: seq<Doc>, asc: bool) {
    forall i, j :: 0 <= i < j < |docs| ==> Before(docs[i], docs[j], asc)
  }

  lemma {:induction false} MatchingIff(docs: seq<Doc>, filter: Doc -> bool, doc: Doc)
    ensures doc in Matching(docs, filter) <==> doc in docs && filter(doc)
  {
    if docs != [] {
      var front, last := docs[..|docs| - 1], docs[|docs| - 1];
      MatchingIff(front, filter, doc);
      assert docs == front + [last];
    }
  }

  lemma {:induction false} MatchingDistinct(docs: seq<Doc>, filter: Doc -> bool)
    requires DistinctIds(docs)
    ensures DistinctIds(Matching(docs, filter))
  {
    if docs != [] {
      var front, last := docs[..|docs| - 1], docs[|docs| - 1];
      MatchingDistinct(front, filter);
      forall doc | doc in Matching(front, filter) ensures doc.id != last.id { MatchingIff(front, filter, doc); }
    }
  }

  lemma {:induction false} SelectedIff(docs: seq<Doc>, cursor: Option<Cursor>, asc: bool, doc: Doc)
    ensures doc in Selected(docs, cursor, asc) <==> doc in docs && Selects(cursor, asc, doc)
  {
    if docs != [] {
      var front, last := docs[..|docs| - 1], docs[|docs| - 1];
      SelectedIff(front, cursor, asc, doc);
      assert docs == front + [last];
    }
  }

  lemma {:induction false} SelectedDistinct(docs: seq<Doc>, cursor: Option<Cursor>, asc: bool)
    requires DistinctIds(docs)
    ensures DistinctIds(Selected(docs, cursor, asc))
  {
    if docs != [] {
      var front, last := docs[..|docs| - 1], docs[|docs| - 1];
      SelectedDistinct(front, cursor, asc);
      forall doc | doc in Selected(front, cursor, asc) ensures doc.id != last.id { SelectedIff(front, cursor, asc, doc); }
    }
  }

  lemma {:induction false} InsertSorts(sorted: seq<Doc>, doc: Doc, asc: bool)
    requires InOrder(sorted, asc) && forall other :: other in sorted ==> other.id != doc.id
    ensures InOrder(Insert(sorted, doc, asc), asc)
    ensures forall other :: other in Insert(sorted, doc, asc) <==> other in sorted || other == doc
  {
    if sorted != [] {
      var front, last := sorted[..|sorted| - 1], sorted[|sorted| - 1];
      assert sorted == front + [last];
      if Before(last, doc, asc) {
        forall i | 0 <= i < |sorted| ensures Before(sorted[i], doc, asc) {}
      } else {
        InsertSorts(front, doc, asc);
        assert Before(doc, last, asc);
        forall other | other in Insert(front, doc, asc) ensures Before(other, last, asc) {}
      }
    }
  }

  lemma {:induction false} SortSorts(docs: seq<Doc>, asc: bool)
    requires DistinctIds(docs)
    ensures InOrder(Sort(docs, asc), asc)
    ensures forall doc :: doc in Sort(docs, asc) <==> doc in docs
  {
    if docs != [] {
      var front, last := docs[..|docs| - 1], docs[|docs| - 1];
      SortSorts(front, asc);
      var sorted := Sort(front, asc);
      assert docs == front + [last];
      forall other | other in sorted ensures other.id != last.id {
        var i :| 0 <= i < |front| && front[i] == other;
        assert docs[i].id != docs[|docs| - 1].id;
      }
      InsertSorts(sorted, last, asc);
    }
  }

  /** A listing is determined by what is in it. */
  lemma {:induction false} OneOrder(xs: seq<Doc>, ys: seq<Doc>, asc: bool)
    requires InOrder(xs, asc) && InOrder(ys, asc) && forall doc :: doc in xs <==> doc in ys
    ensures xs == ys
  {
    if xs == [] {
      assert forall i :: 0 <= i < |ys| ==> ys[i] in xs;
    } else {
      var x := xs[|xs| - 1];
      assert x in ys;
      var y := ys[|ys| - 1];
      assert y in xs;
      assert x == y;
      var xs', ys' := xs[..|xs| - 1], ys[..|ys| - 1];
      assert xs == xs' + [x] && ys == ys' + [y];
      forall doc: Doc ensures doc in xs' <==> doc in ys' {
        assert doc in xs <==> doc in xs' || doc == x;
        assert doc in ys <==> doc in ys' || doc == x;
        assert x !in xs' && x !in ys';
      }
      OneOrder(xs', ys', asc);
    }
  }

  /** The listing of some documents: those documents, in order. */
  ghost predicate IsListing(docs: seq<Doc>, asc: bool, listing: seq<Doc>) {
    InOrder(listing, asc) && |listing| == |docs| && forall doc :: doc in listing <==> doc in docs
  }

  lemma SortIsListing(docs: seq<Doc>, asc: bool)
    requires DistinctIds(docs)
    ensures IsListing(docs, asc, Sort(docs, asc))
  {
    SortSorts(docs, asc);
    SortLength(docs, asc);
  }

  /** What the database finds is any sequence with the same documents, in order. */
  lemma FoundIs(docs: seq<Doc>, cursor: Option<Cursor>, asc: bool, rest: seq<Doc>)
    requires DistinctIds(docs) && InOrder(rest, EffectiveAsc(asc, cursor))
    requires forall doc :: doc in rest <==> doc in docs && Selects(cursor, asc, doc)
    ensures Sort(Selected(docs, cursor, asc), EffectiveAsc(asc, cursor)) == rest
  {
    SelectedDistinct(docs, cursor, asc);
    SortSorts(Selected(docs, cursor, asc), EffectiveAsc(asc, cursor));
    forall doc: Doc ensures doc in Selected(docs, cursor, asc) <==> doc in rest { SelectedIff(docs, cursor, asc, doc); }
    OneOrder(Sort(Selected(docs, cursor, asc), EffectiveAsc(asc, cursor)), rest, EffectiveAsc(asc, cursor));
  }

  lemma {:induction false} InsertLength(sorted: seq<Doc>, doc: Doc, asc: bool)
    ensures |Insert(sorted, doc, asc)| == |sorted| + 1
  {
    if sorted != [] { InsertLength(sorted[..|sorted| - 1], doc, asc); }
  }

  lemma {:induction false} SortLength(docs: seq<Doc>, asc: bool)
    ensures |Sort(docs, asc)| == |docs|
  {
    if docs != [] {
      SortLength(docs[..|docs| - 1], asc);
      InsertLength(Sort(docs[..|docs| - 1], asc), docs[|docs| - 1], asc);
    }
  }

  // ----- pages -----

  /** The documents of a listing past the one at `k` are those behind it in the listing. */
  lemma PastIsAfter(listing: seq<Doc>, asc: bool, k: nat, j: nat)
    requires InOrder(listing, asc) && k < |listing| && j < |listing|
    ensures PastCursor(listing[j], CursorOf(listing[k], Forward), asc) <==> k < j
    ensures PastCursor(listing[j], CursorOf(listing[k], Backward), !asc) <==> j < k
  {
    if j < k { assert Before(listing[j], listing[k], asc); }
    if k < j { assert Before(listing[k], listing[j], asc); }
  }

  lemma FoundAfter(docs: seq<Doc>, asc: bool, listing: seq<Doc>, k: nat)
    requires DistinctIds(docs) && IsListing(docs, asc, listing) && k < |listing|
    ensures Sort(Selected(docs, Some(CursorOf(listing[k], Forward)), asc), asc) == listing[k + 1..]
  {
    var cursor := Some(CursorOf(listing[k], Forward));
    var rest := listing[k + 1..];
    forall doc: Doc ensures doc in rest <==> doc in docs && Selects(cursor, asc, doc) {
      if doc in listing {
        var j :| 0 <= j < |listing| && listing[j] == doc;
        PastIsAfter(listing, asc, k, j);
        if k < j { assert rest[j - k - 1] == doc; }
      }
      if doc in rest {
        var j :| 0 <= j < |rest| && rest[j] == doc;
        PastIsAfter(listing, asc, k, k + 1 + j);
      }
    }
    FoundIs(docs, cursor, asc, rest);
  }

  lemma FoundBefore(docs: seq<Doc>, asc: bool, listing: seq<Doc>, k: nat)
    requires DistinctIds(docs) && IsListing(docs, asc, listing) && k < |listing|
    ensures Sort(Selected(docs, Some(CursorOf(listing[k], Backward)), asc), !asc) == Reversed(listing[..k])
  {
    var cursor := Some(CursorOf(listing[k], Backward));
    var rest := Reversed(listing[..k]);
    forall i, j | 0 <= i < j < |rest| ensures Before(rest[i], rest[j], !asc) {
      assert Before(listing[k - 1 - j], listing[k - 1 - i], asc);
    }
    forall doc: Doc ensures doc in rest <==> doc in docs && Selects(cursor, asc, doc) {
      if doc in listing {
        var j :| 0 <= j < |listing| && listing[j] == doc;
        PastIsAfter(listing, asc, k, j);
        if j < k { assert rest[k - 1 - j] == doc; }
      }
      if doc in rest {
        var j :| 0 <= j < |rest| && rest[j] == doc;
        PastIsAfter(listing, asc, k, k - 1 - j);
      }
    }
    FoundIs(docs, cursor, asc, rest);
  }

  /** The forward page of a listing from `start`; the page before it ends at `start - 1`. */
  function ForwardPage(listing: seq<Doc>, start: nat, limit: nat): Page
    requires start <= |listing| && limit > 0
  {
    var end := if start + limit <= |listing| then start + limit else |listing|;
    Page(listing[start..end],
         if end < |listing| then Some(CursorOf(listing[end - 1], Forward)) else None,
         if 0 < start < |listing| then Some(CursorOf(listing[start], Backward)) else None,
         |listing|)
  }

  lemma FirstFind(docs: seq<Doc>, asc: bool, limit: nat, listing: seq<Doc>)
    requires DistinctIds(docs) && IsListing(docs, asc, listing)
    ensures Find(docs, None, asc, limit) == listing[..Min(limit, |listing|)]
  {
    FoundIs(docs, None, asc, listing);
  }

  lemma NextFind(docs: seq<Doc>, asc: bool, limit: nat, listing: seq<Doc>, k: nat)
    requires DistinctIds(docs) && IsListing(docs, asc, listing) && k < |listing|
    ensures Find(docs, Some(CursorOf(listing[k], Forward)), asc, limit) == listing[k + 1..][..Min(limit, |listing| - k - 1)]
  {
    FoundAfter(docs, asc, listing, k);
  }

  lemma PrevFind(docs: seq<Doc>, asc: bool, limit: nat, listing: seq<Doc>, k: nat)
    requires DistinctIds(docs) && IsListing(docs, asc, listing) && k < |listing|
    ensures Find(docs, Some(CursorOf(listing[k], Backward)), asc, limit) == Reversed(listing[..k])[..Min(limit, k)]
  {
    FoundBefore(docs, asc, listing, k);
  }

  /** One document more than the page says whether there is another page. */
  lemma MetaForward(listing: seq<Doc>, start: nat, limit: nat, cursor: Option<Cursor>)
    requires limit > 0 && start <= |listing| && (cursor.None? <==> start == 0)
    requires cursor.Some? ==> cursor.value.direction.Forward?
    ensures Meta(listing[start..][..Min(limit + 1, |listing| - start)], limit, |listing|, cursor) == ForwardPage(listing, start, limit)
  {
    var results := listing[start..][..Min(limit + 1, |listing| - start)];
    assert results[..Min(limit, |results|)] == listing[start..Min(start + limit, |listing|)];
  }

  lemma FirstAnswer(docs: seq<Doc>, asc: bool, limit: nat, listing: seq<Doc>)
    requires DistinctIds(docs) && IsListing(docs, asc, listing) && limit > 0
    ensures Answer(docs, asc, limit, None) == ForwardPage(listing, 0, limit)
  {
    FirstFind(docs, asc, limit + 1, listing);
    assert listing[0..] == listing;
    MetaForward(listing, 0, limit, None);
  }

  /** A next cursor taken at `k` answers with what follows `k`. */
  lemma NextAnswer(docs: seq<Doc>, asc: bool, limit: nat, listing: seq<Doc>, k: nat)
    requires DistinctIds(docs) && IsListing(docs, asc, listing) && limit > 0 && k < |listing|
    ensures Answer(docs, asc, limit, Some(CursorOf(listing[k], Forward))) == ForwardPage(listing, k + 1, limit)
  {
    NextFind(docs, asc, limit + 1, listing, k);
    MetaForward(listing, k + 1, limit, Some(CursorOf(listing[k], Forward)));
  }

  /** A prev cursor's page: the last `limit + 1` before `k`, less the very last if there are as many. */
  ghost predicate IsBackPage(listing: seq<Doc>, k: nat, limit: nat, page: Page)
    requires k < |listing|
  {
    && page.items == (if k <= limit then listing[..k] else listing[k - limit - 1..k - 1])
    && page.prev == (if k <= limit then None else Some(CursorOf(listing[k - limit - 1], Backward)))
    && page.total == |listing|
  }

  lemma MetaBackward(listing: seq<Doc>, k: nat, limit: nat)
    requires limit > 0 && k < |listing|
    ensures IsBackPage(listing, k, limit, Meta(Reversed(Reversed(listing[..k])[..Min(limit + 1, k)]), limit, |listing|,
                                               Some(CursorOf(listing[k], Backward))))
  {
    var results := Reversed(Reversed(listing[..k])[..Min(limit + 1, k)]);
    assert results == if k <= limit + 1 then listing[..k] else listing[k - limit - 1..k];
    assert k > limit ==> results[..limit] == listing[k - limit - 1..k - 1];
  }

  lemma PrevAnswer(docs: seq<Doc>, asc: bool, limit: nat, listing: seq<Doc>, k: nat)
    requires DistinctIds(docs) && IsListing(docs, asc, listing) && limit > 0 && k < |listing|
    ensures IsBackPage(listing, k, limit, Answer(docs, asc, limit, Some(CursorOf(listing[k], Backward))))
  {
    PrevFind(docs, asc, limit + 1, listing, k);
    MetaBackward(listing, k, limit);
  }

  /**
   * Going back from `k` shows the page that ends right before it exactly when it
   * reaches the start; otherwise the document next to the cursor is left out.
   */
  lemma PrevIsExactIff(docs: seq<Doc>, asc: bool, limit: nat, listing: seq<Doc>, k: nat)
    requires DistinctIds(docs) && IsListing(docs, asc, listing) && limit > 0 && k < |listing|
    ensures var page := Answer(docs, asc, limit, Some(CursorOf(listing[k], Backward)));
      && (page.items == listing[Max(0, k - limit)..k] <==> k <= limit)
      && (k > limit ==> listing[k - 1] !in page.items)
  {
    PrevAnswer(docs, asc, limit, listing, k);
    if k > limit {
      assert listing[k - limit..k][limit - 1] == listing[k - 1];
      forall i | 0 <= i < k - 1 ensures listing[i] != listing[k - 1] { assert Before(listing[i], listing[k - 1], asc); }
    }
  }

  // ----- walks -----

  /** Pages fetched by following `next` from the first page, down to one without it. */
  ghost predicate IsWalk(answer: Option<Cursor> -> Page, pages: seq<Page>) {
    && pages != [] && pages[0] == answer(None) && pages[|pages| - 1].next.None?
    && forall i :: 0 < i < |pages| ==> Follows(answer, pages[i - 1], pages[i])
  }

  predicate Follows(answer: Option<Cursor> -> Page, page: Page, following: Page) {
    page.next.Some? && following == answer(page.next)
  }

  function Shown(pages: seq<Page>): seq<Doc> {
    if pages == [] then [] else Shown(pages[..|pages| - 1]) + pages[|pages| - 1].items
  }

  function CeilDiv(n: nat, limit: nat): nat
    requires limit > 0
  {
    (n + limit - 1) / limit
  }

  /** Where the page of index `i` starts. */
  function StartOf(i: nat, limit: nat): nat { if i == 0 then 0 else StartOf(i - 1, limit) + limit }

  lemma {:induction false} StartIs(i: nat, limit: nat)
    ensures StartOf(i, limit) == i * limit
  {
    if i > 0 { StartIs(i - 1, limit); }
  }

  predicate AnswersAfter(answer: Option<Cursor> -> Page, listing: seq<Doc>, limit: nat, k: nat) {
    k < |listing| && limit > 0 ==> answer(Some(CursorOf(listing[k], Forward))) == ForwardPage(listing, k + 1, limit)
  }

  /** Answers that cut a listing forward. */
  ghost predicate AnswersForward(answer: Option<Cursor> -> Page, listing: seq<Doc>, limit: nat)
    requires limit > 0
  {
    answer(None) == ForwardPage(listing, 0, limit) && forall k: nat :: AnswersAfter(answer, listing, limit, k)
  }

  predicate IsPageAt(listing: seq<Doc>, limit: nat, pages: seq<Page>, i: nat) {
    limit > 0 && i < |pages| && StartOf(i, limit) <= |listing| && pages[i] == ForwardPage(listing, StartOf(i, limit), limit)
  }

  lemma FollowingPage(answer: Option<Cursor> -> Page, listing: seq<Doc>, limit: nat, start: nat, page: Page,
                      following: Page)
    requires limit > 0 && start <= |listing| && AnswersForward(answer, listing, limit)
    requires page == ForwardPage(listing, start, limit) && Follows(answer, page, following)
    ensures start + limit <= |listing| && following == ForwardPage(listing, start + limit, limit)
  {
    assert page.next == Some(CursorOf(listing[start + limit - 1], Forward));
    assert AnswersAfter(answer, listing, limit, start + limit - 1);
  }

  lemma {:induction false} PageOfWalk(answer: Option<Cursor> -> Page, listing: seq<Doc>, limit: nat,
                                      pages: seq<Page>, i: nat)
    requires limit > 0 && AnswersForward(answer, listing, limit) && IsWalk(answer, pages) && i < |pages|
    ensures IsPageAt(listing, limit, pages, i)
  {
    if i > 0 {
      PageOfWalk(answer, listing, limit, pages, i - 1);
      assert Follows(answer, pages[i - 1], pages[i]);
      FollowingPage(answer, listing, limit, StartOf(i - 1, limit), pages[i - 1], pages[i]);
    }
  }

  lemma ShownMore(listing: seq<Doc>, start: nat, limit: nat, pages: seq<Page>, page: Page)
    requires limit > 0 && start <= |listing| && page == ForwardPage(listing, start, limit)
    requires Shown(pages) == listing[..start]
    ensures Shown(pages + [page]) == listing[..Min(start + limit, |listing|)]
  {
    assert (pages + [page])[..|pages|] == pages;
    assert listing[..start] + page.items == listing[..Min(start + limit, |listing|)];
  }

  lemma {:induction false} ShownSoFar(listing: seq<Doc>, limit: nat, pages: seq<Page>, i: nat)
    requires limit > 0 && i <= |pages|
    requires forall j: nat :: j < |pages| ==> IsPageAt(listing, limit, pages, j)
    ensures Shown(pages[..i]) == listing[..Min(StartOf(i, limit), |listing|)]
  {
    if i > 0 {
      ShownSoFar(listing, limit, pages, i - 1);
      assert IsPageAt(listing, limit, pages, i - 1);
      assert pages[..i] == pages[..i - 1] + [pages[i - 1]];
      ShownMore(listing, StartOf(i - 1, limit), limit, pages[..i - 1], pages[i - 1]);
    }
  }

  /** A walk over answers that cut a listing shows the listing, in the pages it fills. */
  lemma WalkShows(answer: Option<Cursor> -> Page, listing: seq<Doc>, limit: nat, pages: seq<Page>)
    requires limit > 0 && AnswersForward(answer, listing, limit) && IsWalk(answer, pages)
    ensures Shown(pages) == listing && |pages| == Max(1, CeilDiv(|listing|, limit))
  {
    forall i: nat | i < |pages| ensures IsPageAt(listing, limit, pages, i) { PageOfWalk(answer, listing, limit, pages, i); }
    ShownSoFar(listing, limit, pages, |pages|);
    assert pages[..|pages|] == pages;
    var last := |pages| - 1;
    assert IsPageAt(listing, limit, pages, last);
    if last > 0 {
      assert IsPageAt(listing, limit, pages, last - 1);
      assert Follows(answer, pages[last - 1], pages[last]);
    }
    PagesFor(|listing|, limit, |pages|);
  }

  /** The page count of `n` documents is the count whose last page `n` falls on. */
  lemma PagesFor(n: nat, limit: nat, pages: nat)
    requires limit > 0 && pages > 0 && StartOf(pages - 1, limit) <= n <= StartOf(pages, limit)
    requires pages > 1 ==> StartOf(pages - 1, limit) < n
    ensures pages == Max(1, CeilDiv(n, limit))
  {
    StartIs(pages - 1, limit);
    StartIs(pages, limit);
    DivIs(n + limit - 1, limit, if n == 0 then 0 else pages);
  }

  lemma DivIs(x: nat, d: nat, q: nat)
    requires d > 0 && q * d <= x < q * d + d
    ensures x / d == q
  {
    var p := x / d;
    assert p * d <= x < p * d + d;
    assert p < q ==> (p + 1) * d <= q * d;
    assert q < p ==> (q + 1) * d <= p * d;
  }

  /** What a request for a page of a filtered collection answers, cursor by cursor. */
  function Answers(docs: seq<Doc>, filter: Doc -> bool, asc: bool, limit: nat): Option<Cursor> -> Page {
    cursor => Answer(Matching(docs, filter), asc, limit, cursor)
  }

  lemma CollectionAnswersForward(docs: seq<Doc>, filter: Doc -> bool, asc: bool, limit: nat, listing: seq<Doc>)
    requires DistinctIds(docs) && limit > 0 && IsListing(Matching(docs, filter), asc, listing)
    ensures AnswersForward(Answers(docs, filter, asc, limit), listing, limit)
  {
    var matching := Matching(docs, filter);
    MatchingDistinct(docs, filter);
    FirstAnswer(matching, asc, limit, listing);
    forall k: nat ensures AnswersAfter(Answers(docs, filter, asc, limit), listing, limit, k) {
      if k < |listing| { NextAnswer(matching, asc, limit, listing, k); }
    }
  }

  /** The listing of a filtered collection: what the filter matches, in order. */
  lemma Listing(docs: seq<Doc>, filter: Doc -> bool, asc: bool) returns (listing: seq<Doc>)
    requires DistinctIds(docs)
    ensures IsListing(Matching(docs, filter), asc, listing)
    ensures forall doc :: doc in listing <==> doc in docs && filter(doc)
  {
    MatchingDistinct(docs, filter);
    SortIsListing(Matching(docs, filter), asc);
    listing := Sort(Matching(docs, filter), asc);
    forall doc: Doc ensures doc in listing <==> doc in docs && filter(doc) { MatchingIff(docs, filter, doc); }
  }

  /**
   * Every walk over a filtered collection shows every matching document exactly
   * once, in order, in either direction, whatever the ties and the page size;
   * and it takes as many pages as they fill, at least one.
   */
  lemma WalkShowsListing(docs: seq<Doc>, filter: Doc -> bool, asc: bool, limit: nat, pages: seq<Page>)
    requires DistinctIds(docs) && limit > 0 && IsWalk(Answers(docs, filter, asc, limit), pages)
    ensures InOrder(Shown(pages), asc)
    ensures forall doc :: doc in Shown(pages) <==> doc in docs && filter(doc)
    ensures |pages| == Max(1, CeilDiv(|Shown(pages)|, limit))
  {
    var listing := Listing(docs, filter, asc);
    CollectionAnswersForward(docs, filter, asc, limit, listing);
    WalkShows(Answers(docs, filter, asc, limit), listing, limit, pages);
  }

  lemma WalkEnds(answer: Option<Cursor> -> Page, listing: seq<Doc>, limit: nat) returns (pages: seq<Page>)
    requires limit > 0 && AnswersForward(answer, listing, limit)
    ensures IsWalk(answer, pages)
  {
    pages := [answer(None)];
    var start := 0;
    while pages[|pages| - 1].next.Some?
      invariant pages != [] && pages[0] == answer(None)
      invariant start <= |listing| && pages[|pages| - 1] == ForwardPage(listing, start, limit)
      invariant forall i :: 0 < i < |pages| ==> Follows(answer, pages[i - 1], pages[i])
      decreases |listing| - start
    {
      var page := pages[|pages| - 1];
      assert Follows(answer, page, answer(page.next));
      FollowingPage(answer, listing, limit, start, page, answer(page.next));
      start := start + limit;
      pages := pages + [answer(page.next)];
    }
  }

  /** And following `next` ends: there is such a walk. */
  lemma WalkExists(docs: seq<Doc>, filter: Doc -> bool, asc: bool, limit: nat) returns (pages: seq<Page>)
    requires DistinctIds(docs) && limit > 0
    ensures IsWalk(Answers(docs, filter, asc, limit), pages)
  {
    var listing := Listing(docs, filter, asc);
    CollectionAnswersForward(docs, filter, asc, limit, listing);
    pages := WalkEnds(Answers(docs, filter, asc, limit), listing, limit);
  }
}
