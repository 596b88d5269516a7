/**
 * The recipient loop of packages/functions/src/scheduler/send/index.ts (lines
 * 76-102, commented out in the source): status-index queries for partition '1'
 * and status ENABLED, each started at the previous page's LastEvaluatedKey,
 * until a page comes back without one.
 *
 * The table is seen through the index as a finite chain of stretches of rows;
 * a page's LastEvaluatedKey is the position of the next stretch. Which
 * positions the store fails to answer is part of the store.
 */
module Recipients {
  import opened Wrappers
  import opened Subscriptions

  type Cursor = nat

  datatype RecipientIndex = RecipientIndex(segments: seq<seq<Subscription>>, failing: set<Cursor>)

  datatype Page = Page(items: seq<RecipientRow>, lastEvaluatedKey: Option<Cursor>)

  datatype QueryResult = PageOk(page: Page) | QueryFailed

  /** The query answered with a page that carries a LastEvaluatedKey. */
  predicate HasMore(q: QueryResult) {
    q.PageOk? && q.page.lastEvaluatedKey.Some?
  }

  /** The query answered with the final page. */
  predicate IsLastPage(q: QueryResult) {
    q.PageOk? && q.page.lastEvaluatedKey.None?
  }

  /**
   * Each startKey after the first is the LastEvaluatedKey of the query before
   * it, and every query but the last had one to give.
   */
  ghost predicate Chained(index: RecipientIndex, keys: seq<Option<Cursor>>) {
    forall j :: 0 <= j < |keys| - 1 ==>
      HasMore(Query(index, keys[j])) && keys[j + 1] == Query(index, keys[j]).page.lastEvaluatedKey
  }

  lemma ChainedSnoc(index: RecipientIndex, keys: seq<Option<Cursor>>, next: Option<Cursor>)
    requires Chained(index, keys)
    requires keys != [] ==> HasMore(Query(index, keys[|keys| - 1])) && next == Query(index, keys[|keys| - 1]).page.lastEvaluatedKey
    ensures Chained(index, keys + [next])
  {
  }

  /** One query with the given startKey. */
  function Query(index: RecipientIndex, startKey: Option<Cursor>): (r: QueryResult)
    ensures r.PageOk? && r.page.lastEvaluatedKey.Some? ==>
              startKey.GetOr(0) < r.page.lastEvaluatedKey.value < |index.segments|
  {
    var k := startKey.GetOr(0);
    if k in index.failing then QueryFailed
    else if k >= |index.segments| then PageOk(Page([], None))
    else PageOk(Page(MatchingRows(index.segments[k]),
                     if k + 1 < |index.segments| then Some(k + 1) else None))
  }

  /** Reference meaning of the loop from position `k` on: the pages' rows in order, or failure. */
  function FetchFrom(index: RecipientIndex, startKey: Option<Cursor>): Option<seq<RecipientRow>>
    decreases |index.segments| - startKey.GetOr(0)
  {
    match Query(index, startKey)
    case QueryFailed => None
    case PageOk(page) =>
      if page.lastEvaluatedKey.None? then Some(page.items)
      else
        match FetchFrom(index, page.lastEvaluatedKey)
        case None => None
        case Some(more) => Some(page.items + more)
  }

  /** Rows already gathered in front of what the rest of the loop yields. */
  function Prepend(items: seq<RecipientRow>, rest: Option<seq<RecipientRow>>): Option<seq<RecipientRow>> {
    match rest
    case None => None
    case Some(more) => Some(items + more)
  }

  /** One turn of the loop, in terms of the reference meaning. */
  lemma FetchFromStep(index: RecipientIndex, startKey: Option<Cursor>, items: seq<RecipientRow>)
    ensures Query(index, startKey).QueryFailed? ==> Prepend(items, FetchFrom(index, startKey)) == None
    ensures IsLastPage(Query(index, startKey)) ==>
              Prepend(items, FetchFrom(index, startKey)) == Some(items + Query(index, startKey).page.items)
    ensures HasMore(Query(index, startKey)) ==>
              Prepend(items, FetchFrom(index, startKey)) ==
              Prepend(items + Query(index, startKey).page.items, FetchFrom(index, Query(index, startKey).page.lastEvaluatedKey))
  {
    var q := Query(index, startKey);
    if HasMore(q) {
      var next := FetchFrom(index, q.page.lastEvaluatedKey);
      if next.Some? {
        assert items + (q.page.items + next.value) == (items + q.page.items) + next.value;
      }
    }
  }

  /** The emails of a list of rows (`items.map(item => item.email)`). */
  function Emails(rows: seq<RecipientRow>): (r: seq<string>)
    ensures |r| == |rows|
    ensures forall j :: 0 <= j < |rows| ==> r[j] == rows[j].email
  {
    if |rows| == 0 then [] else [rows[0].email] + Emails(rows[1..])
  }

  /**
   * The loop. `startKeys` lists the startKey of every query made. The first is
   * absent, each later one is the LastEvaluatedKey of the page before, every
   * query but the last returned a page with a key, and the last either failed
   * or returned a page without one. On success the result is every page's rows
   * in query order; a failed query discards everything.
   */
  method CollectRecipients(index: RecipientIndex) returns (r: Option<seq<RecipientRow>>, startKeys: seq<Option<Cursor>>)
    ensures r == FetchFrom(index, None)
    ensures |startKeys| >= 1 && startKeys[0] == None
    ensures Chained(index, startKeys)
    ensures r.Some? ==> IsLastPage(Query(index, startKeys[|startKeys| - 1]))
    ensures r.None? <==> Query(index, startKeys[|startKeys| - 1]).QueryFailed?
  {
    var items: seq<RecipientRow> := [];
    var nextToken: Option<Cursor> := None;
    startKeys := [];
    if FetchFrom(index, None).Some? {
      assert items + FetchFrom(index, None).value == FetchFrom(index, None).value;
    }
    while true
      invariant startKeys == [] ==> nextToken.None?
      invariant nextToken.Some? ==> nextToken.value < |index.segments|
      invariant startKeys != [] ==> startKeys[0] == None
      invariant Chained(index, startKeys)
      invariant startKeys != [] ==>
                  HasMore(Query(index, startKeys[|startKeys| - 1])) &&
                  nextToken == Query(index, startKeys[|startKeys| - 1]).page.lastEvaluatedKey
      invariant Prepend(items, FetchFrom(index, nextToken)) == FetchFrom(index, None)
      decreases |index.segments| + 1 - nextToken.GetOr(0)
    {
      ChainedSnoc(index, startKeys, nextToken);
      startKeys := startKeys + [nextToken];
      var subscriptionItems := Query(index, nextToken);
      FetchFromStep(index, nextToken, items);
      if subscriptionItems.QueryFailed? {
        return None, startKeys;
      }
      var page := subscriptionItems.page;
      if page.lastEvaluatedKey.None? {
        return Some(items + page.items), startKeys;
      }
      nextToken := page.lastEvaluatedKey;
      items := items + page.items;
    }
  }

  /** The rows of every stretch from position `k` on, in order. */
  function AllRowsFrom(index: RecipientIndex, k: nat): seq<RecipientRow>
    decreases |index.segments| - k
  {
    if k >= |index.segments| then [] else MatchingRows(index.segments[k]) + AllRowsFrom(index, k + 1)
  }

  /**
   * What the loop gathers: it fails iff some position it must read is failing
   * (position 0 is always read); otherwise it yields every stretch's matching
   * rows, in stretch order.
   */
  lemma {:induction false} FetchFromMeaning(index: RecipientIndex, k: nat)
    requires k == 0 || k < |index.segments|
    ensures FetchFrom(index, if k == 0 then None else Some(k)).None? <==>
              exists c :: c in index.failing && k <= c && (c == k || c < |index.segments|)
    ensures FetchFrom(index, if k == 0 then None else Some(k)).Some? ==>
              FetchFrom(index, if k == 0 then None else Some(k)).value == AllRowsFrom(index, k)
    decreases |index.segments| - k
  {
    var start: Option<Cursor> := if k == 0 then None else Some(k);
    assert start.GetOr(0) == k;
    if k in index.failing {
    } else if k >= |index.segments| {
      assert AllRowsFrom(index, k) == [];
    } else if k + 1 < |index.segments| {
      FetchFromMeaning(index, k + 1);
    } else {
      assert AllRowsFrom(index, k + 1) == [];
    }
  }
}
