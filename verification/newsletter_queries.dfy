/**
 * The newsletter read handlers: the `sortItems` order and the list handler of
 * packages/functions/src/newsletters/list/index.ts, and the get handler of
 * newsletters/get/index.ts.
 *
 * A DynamoDB scan or query is a parameter: a function from (limit, start key)
 * to the rows the read covered and the key it stopped at. The key condition
 * and the projection the handler asks for are applied by the model. The
 * nextToken codec (base64 of the JSON key) is the identity on key text.
 */
module NewsletterQueries {
  import opened Wrappers
  import opened Newsletters
  import opened Authorizer

  // ---------------------------------------------------------------- sortItems

  /** The sort key of one group: publishedAt when published, createdAt otherwise. */
  function Key(n: Newsletter): int {
    n.publishedAt.GetOr(n.createdAt)
  }

  /**
   * The comparator of `sortItems`: within a group (both published or both
   * not) the later key comes first; across groups the published item does.
   */
  function Compare(a: Newsletter, b: Newsletter): int {
    if a.publishedAt.Some? == b.publishedAt.Some? then Key(b) - Key(a)
    else if a.publishedAt.Some? then -1
    else 1
  }

  /** `a` may stand before `b` in the sorted list. */
  predicate Before(a: Newsletter, b: Newsletter) {
    Compare(a, b) <= 0
  }

  /**
   * The comparator is a consistent comparison: its sign flips with its
   * arguments, and the order it induces is total and transitive.
   */
  lemma CompareIsTotalPreorder(a: Newsletter, b: Newsletter, c: Newsletter)
    ensures Compare(a, b) == -Compare(b, a)
    ensures Before(a, b) || Before(b, a)
    ensures Before(a, b) && Before(b, c) ==> Before(a, c)
  {
  }

  /** Published items first; within each group non-increasing in the group's key. */
  predicate PublishedFirstByKey(a: Newsletter, b: Newsletter) {
    && (b.publishedAt.Some? ==> a.publishedAt.Some?)
    && (a.publishedAt.Some? == b.publishedAt.Some? ==> Key(a) >= Key(b))
  }

  lemma BeforeMeaning(a: Newsletter, b: Newsletter)
    ensures Before(a, b) <==> PublishedFirstByKey(a, b)
  {
  }

  predicate Sorted(s: seq<Newsletter>) {
    forall i, j :: 0 <= i < j < |s| ==> Before(s[i], s[j])
  }

  /** Insert `x` before the first element it may precede: ahead of its equals, which keeps the sort stable. */
  function Insert(x: Newsletter, s: seq<Newsletter>): (r: seq<Newsletter>)
    ensures |r| == |s| + 1
  {
    if |s| == 0 then [x]
    else if Before(x, s[0]) then [x] + s
    else [s[0]] + Insert(x, s[1..])
  }

  /** `items.sort(comparator)`: a stable sort, here by insertion. */
  function SortItems(s: seq<Newsletter>): (r: seq<Newsletter>)
    ensures |r| == |s|
  {
    if |s| == 0 then [] else Insert(s[0], SortItems(s[1..]))
  }

  lemma {:induction false} InsertPermutes(x: Newsletter, s: seq<Newsletter>)
    ensures multiset(Insert(x, s)) == multiset(s) + multiset{x}
  {
    if |s| > 0 && !Before(x, s[0]) {
      InsertPermutes(x, s[1..]);
      assert s == [s[0]] + s[1..];
    }
  }

  lemma {:induction false} InsertSorted(x: Newsletter, s: seq<Newsletter>)
    requires Sorted(s)
    ensures Sorted(Insert(x, s))
  {
    if |s| == 0 {
    } else if Before(x, s[0]) {
      forall k | 0 <= k < |s|
        ensures Before(x, s[k])
      {
        CompareIsTotalPreorder(x, s[0], s[k]);
      }
    } else {
      var rest := Insert(x, s[1..]);
      InsertSorted(x, s[1..]);
      InsertPermutes(x, s[1..]);
      forall k | 0 <= k < |rest|
        ensures Before(s[0], rest[k])
      {
        assert rest[k] in multiset(rest);
        if rest[k] != x {
          assert rest[k] in multiset(s[1..]);
          var m :| 0 <= m < |s[1..]| && s[1..][m] == rest[k];
          assert s[m + 1] == rest[k];
        } else {
          CompareIsTotalPreorder(x, s[0], x);
        }
      }
    }
  }

  /** `sortItems` returns a permutation of its input. */
  lemma {:induction false} SortItemsPermutes(s: seq<Newsletter>)
    ensures multiset(SortItems(s)) == multiset(s)
  {
    if |s| > 0 {
      SortItemsPermutes(s[1..]);
      InsertPermutes(s[0], SortItems(s[1..]));
      assert s == [s[0]] + s[1..];
    }
  }

  /**
   * After `sortItems` every published item precedes every unpublished one,
   * and within each group the key does not increase.
   */
  lemma {:induction false} SortItemsOrders(s: seq<Newsletter>)
    ensures Sorted(SortItems(s))
    ensures forall i, j :: 0 <= i < j < |SortItems(s)| ==> PublishedFirstByKey(SortItems(s)[i], SortItems(s)[j])
  {
    if |s| > 0 {
      SortItemsOrders(s[1..]);
      InsertSorted(s[0], SortItems(s[1..]));
    }
    var r := SortItems(s);
    forall i, j | 0 <= i < j < |r|
      ensures PublishedFirstByKey(r[i], r[j])
    {
      BeforeMeaning(r[i], r[j]);
    }
  }

  // ---------------------------------------------------------------- list

  /** The query string: `limit` and `nextToken`, each possibly absent. */
  datatype ListParams = ListParams(limit: Option<int>, nextToken: Option<string>)

  predicate NoParams(p: ListParams) {
    p.limit.None? && p.nextToken.None?
  }

  /** What one scan or query read: rows in read order and LastEvaluatedKey. */
  datatype ReadPage = ReadPage(rows: seq<Newsletter>, lastEvaluatedKey: Option<string>)

  /** A table read as a function of (limit, start key). */
  type Read = (Option<int>, Option<string>) -> ReadPage

  /** The projection `attributes: ['status', 'subject', 'publishedAt', 'content']`. */
  datatype Summary = Summary(status: NewsletterStatus, subject: string, publishedAt: Option<int>, content: string)

  function Summarize(n: Newsletter): Summary {
    Summary(n.status, n.subject, n.publishedAt, n.content)
  }

  datatype ListItem = Full(newsletter: Newsletter) | Partial(summary: Summary)

  /** The 200 answer: the items and the token for the next page. */
  datatype ListResponse = ListResponse(statusCode: nat, items: seq<ListItem>, nextToken: Option<string>)

  function AsFull(s: seq<Newsletter>): (r: seq<ListItem>)
    ensures |r| == |s| && forall i :: 0 <= i < |s| ==> r[i] == Full(s[i])
  {
    if |s| == 0 then [] else [Full(s[0])] + AsFull(s[1..])
  }

  /** The status-index query `status = PUBLIC`, projected: the PUBLIC rows' summaries in read order. */
  function PublicSummaries(rows: seq<Newsletter>): seq<ListItem> {
    if |rows| == 0 then []
    else (if rows[0].status == PUBLIC then [Partial(Summarize(rows[0]))] else []) + PublicSummaries(rows[1..])
  }

  /**
   * A public page holds exactly the summaries of the PUBLIC rows read: every
   * item is a PUBLIC summary of a row, and no PUBLIC row is left out.
   */
  lemma {:induction false} PublicSummariesMeaning(rows: seq<Newsletter>)
    ensures forall x :: x in PublicSummaries(rows) ==> x.Partial? && x.summary.status == PUBLIC
    ensures forall x :: x in PublicSummaries(rows) ==> exists n :: n in rows && n.status == PUBLIC && x == Partial(Summarize(n))
    ensures forall n :: n in rows && n.status == PUBLIC ==> Partial(Summarize(n)) in PublicSummaries(rows)
  {
    if |rows| > 0 {
      PublicSummariesMeaning(rows[1..]);
      assert forall n :: n in rows ==> n == rows[0] || n in rows[1..];
    }
  }

  /** The answer's nextToken: the page's LastEvaluatedKey if any, else the request's token echoed. */
  function NextToken(page: ReadPage, requested: Option<string>): (t: Option<string>)
    ensures page.lastEvaluatedKey.Some? ==> t == page.lastEvaluatedKey
    ensures page.lastEvaluatedKey.None? ==> t == requested
  {
    if page.lastEvaluatedKey.Some? then page.lastEvaluatedKey else requested
  }

  /**
   * The list handler as written. Non-admins get one page of the status-index
   * query for PUBLIC, projected. Admins get a sorted scan page, but only when
   * the query string is empty: there the limit and start key passed to the
   * scan are always absent, and with any parameter the items stay empty and
   * the request's token is echoed. The deployed route for this handler has no
   * authorizer (stacks/ApiStack.ts:107-108), so there the admin branch is
   * never taken.
   */
  function ListNewsletters(ctx: RequestContext, params: ListParams, scan: Read, query: Read): (r: ListResponse)
    ensures r.statusCode == 200
    ensures IsAdmin(ctx) && NoParams(params) ==>
              r.items == AsFull(SortItems(scan(None, None).rows)) &&
              r.nextToken == scan(None, None).lastEvaluatedKey
    ensures IsAdmin(ctx) && !NoParams(params) ==> r.items == [] && r.nextToken == params.nextToken
    ensures !IsAdmin(ctx) ==>
              var page := query(params.limit, params.nextToken);
              r.items == PublicSummaries(page.rows) && r.nextToken == NextToken(page, params.nextToken)
  {
    if IsAdmin(ctx) then
      if NoParams(params) then
        var page := scan(params.limit, params.nextToken);
        ListResponse(200, AsFull(SortItems(page.rows)), NextToken(page, params.nextToken))
      else
        ListResponse(200, [], params.nextToken)
    else
      var page := query(params.limit, params.nextToken);
      ListResponse(200, PublicSummaries(page.rows), NextToken(page, params.nextToken))
  }

  /**
   * The list handler as evidently intended: admins always get the sorted scan
   * page for the requested limit and token, like non-admins get theirs.
   */
  function ListNewslettersCorrected(ctx: RequestContext, params: ListParams, scan: Read, query: Read): (r: ListResponse)
    ensures r.statusCode == 200
    ensures IsAdmin(ctx) ==>
              var page := scan(params.limit, params.nextToken);
              r.items == AsFull(SortItems(page.rows)) && r.nextToken == NextToken(page, params.nextToken)
    ensures !IsAdmin(ctx) ==> r == ListNewsletters(ctx, params, scan, query)
  {
    if IsAdmin(ctx) then
      var page := scan(params.limit, params.nextToken);
      ListResponse(200, AsFull(SortItems(page.rows)), NextToken(page, params.nextToken))
    else
      ListNewsletters(ctx, params, scan, query)
  }

  /**
   * A non-admin only ever receives PUBLIC summaries of rows the query read.
   * An admin's items are full records: exactly the scanned rows, each as
   * often as it was read, in comparator order. The handler as written gives
   * the same items whenever it runs the scan at all, that is, with no
   * query parameter.
   */
  lemma ListVisibility(ctx: RequestContext, params: ListParams, scan: Read, query: Read)
    ensures !IsAdmin(ctx) ==>
              forall x :: x in ListNewsletters(ctx, params, scan, query).items ==>
                x.Partial? && x.summary.status == PUBLIC
    ensures IsAdmin(ctx) ==>
              var items := ListNewslettersCorrected(ctx, params, scan, query).items;
              var rows := scan(params.limit, params.nextToken).rows;
              && |items| == |rows|
              && (forall i :: 0 <= i < |items| ==> items[i].Full?)
              && multiset(seq(|items|, i requires 0 <= i < |items| && items[i].Full? => items[i].newsletter)) ==
                 multiset(rows)
              && (forall i, j :: 0 <= i < j < |items| ==> PublishedFirstByKey(items[i].newsletter, items[j].newsletter))
    ensures IsAdmin(ctx) && NoParams(params) ==>
              ListNewsletters(ctx, params, scan, query).items == ListNewslettersCorrected(ctx, params, scan, query).items
  {
    if !IsAdmin(ctx) {
      PublicSummariesMeaning(query(params.limit, params.nextToken).rows);
    } else {
      var rows := scan(params.limit, params.nextToken).rows;
      var items := ListNewslettersCorrected(ctx, params, scan, query).items;
      SortItemsPermutes(rows);
      SortItemsOrders(rows);
      assert seq(|items|, i requires 0 <= i < |items| && items[i].Full? => items[i].newsletter) == SortItems(rows);
    }
  }

  /** Two concrete records, used to exhibit the admin list defect. */
  function Sample(id: string): Newsletter {
    Newsletter(id := id, subject := "s", content := "c", status := PRIVATE, publishAt := None, publishedAt := None,
               sfExecutionArn := None, createdAt := 0, createdBy := "a", updatedAt := None, updatedBy := None,
               title := None, description := None, slug := None, image := None, contentMd := None, seo := None)
  }

  /** An authorizer context whose groups claim lists 'admin'. */
  function AdminContext(): (ctx: RequestContext)
    ensures IsAdmin(ctx)
  {
    RequestContext(Some(AuthorizerInfo(Some(Claims(Some("u"), Some(GroupList([AdminGroup])))))))
  }

  /**
   * The defect: an admin asking for the second page (nextToken 'k') of a table
   * that has one gets no items and the same token back, so the admin list
   * never goes past its first page; the corrected handler returns that page.
   */
  lemma AdminSecondPageIsLost()
    ensures var scan: Read := (limit, start) => if start == Some("k") then ReadPage([Sample("2")], None)
                                                else ReadPage([Sample("1")], Some("k"));
            var query: Read := (limit, start) => ReadPage([], None);
            var params := ListParams(None, Some("k"));
            && ListNewsletters(AdminContext(), params, scan, query) == ListResponse(200, [], Some("k"))
            && ListNewslettersCorrected(AdminContext(), params, scan, query).items == [Full(Sample("2"))]
  {
  }

  // ---------------------------------------------------------------- get

  /** The body of a 200 answer: the full record, a slug-index summary, or `{}`. */
  datatype GetBody = Record(newsletter: Newsletter) | BySlug(summary: Summary) | EmptyBody {
    /** `newsletter.status === 'PRIVATE'`, false on `{}`. */
    predicate IsPrivate() {
      match this
      case Record(n) => n.status == PRIVATE
      case BySlug(s) => s.status == PRIVATE
      case EmptyBody => false
    }
  }

  datatype GetResponse = GetOk(body: GetBody) | GetNotFound

  /** The slug-index query with limit 1: the first row, in index order, whose slug is `slug`. */
  function FirstWithSlug(rows: seq<Newsletter>, slug: string): (r: Option<Newsletter>)
    ensures r.Some? ==> r.value in rows && r.value.slug == Some(slug)
    ensures r.Some? ==> exists i :: 0 <= i < |rows| && rows[i] == r.value && forall j :: 0 <= j < i ==> rows[j].slug != Some(slug)
    ensures r.None? ==> forall n :: n in rows ==> n.slug != Some(slug)
  {
    if |rows| == 0 then None
    else if rows[0].slug == Some(slug) then Some(rows[0])
    else
      var rest := FirstWithSlug(rows[1..], slug);
      assert rest.Some? ==> exists i :: 0 <= i < |rows[1..]| && rows[1..][i] == rest.value && forall j :: 0 <= j < i ==> rows[1..][j].slug != Some(slug);
      assert forall n :: n in rows ==> n == rows[0] || n in rows[1..];
      rest
  }

  /**
   * The get handler. The path id is looked up as an id first; only when
   * nothing is stored there is it tried as a slug, yielding that record's
   * summary or `{}`. A non-admin asking for a PRIVATE record gets 404;
   * anything else, including `{}`, is a 200.
   */
  function GetNewsletter(ctx: RequestContext, id: string, table: Store, slugIndex: seq<Newsletter>): (r: GetResponse)
    ensures id in table ==>
              r == (if !IsAdmin(ctx) && table[id].status == PRIVATE then GetNotFound else GetOk(Record(table[id])))
    ensures id !in table && FirstWithSlug(slugIndex, id).Some? ==>
              var n := FirstWithSlug(slugIndex, id).value;
              r == (if !IsAdmin(ctx) && n.status == PRIVATE then GetNotFound else GetOk(BySlug(Summarize(n))))
    ensures id !in table && FirstWithSlug(slugIndex, id).None? ==> r == GetOk(EmptyBody)
    ensures r.GetNotFound? <==> !IsAdmin(ctx) && r != GetOk(EmptyBody) &&
                                ((id in table && table[id].status == PRIVATE) ||
                                 (id !in table && FirstWithSlug(slugIndex, id).Some? &&
                                  FirstWithSlug(slugIndex, id).value.status == PRIVATE))
  {
    var body :=
      if id in table then Record(table[id])
      else match FirstWithSlug(slugIndex, id)
        case Some(n) => BySlug(Summarize(n))
        case None => EmptyBody;
    if !IsAdmin(ctx) && body.IsPrivate() then GetNotFound else GetOk(body)
  }

  /** Admins are never refused, and non-admins never receive a PRIVATE newsletter. */
  lemma GetVisibility(ctx: RequestContext, id: string, table: Store, slugIndex: seq<Newsletter>)
    ensures IsAdmin(ctx) ==> GetNewsletter(ctx, id, table, slugIndex).GetOk?
    ensures !IsAdmin(ctx) && GetNewsletter(ctx, id, table, slugIndex).GetOk? ==>
              !GetNewsletter(ctx, id, table, slugIndex).body.IsPrivate()
  {
  }
}
