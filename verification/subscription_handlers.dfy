/**
 * The subscription handlers of packages/functions/src/subscriptions:
 * subscribe, unsubscribe and the one-page list. Each is a pure transition
 * (table, request, clock, fresh id) -> (table', reply).
 */
module SubscriptionHandlers {
  import opened Wrappers
  import opened Http
  import opened Subscriptions

  datatype Reply = Respond(statusCode: nat) | Throw(error: HttpError)

  datatype Outcome = Outcome(store: Store, reply: Reply)

  /**
   * subscribe: a put of a fresh record under the email, ENABLED in partition
   * '1', with the fresh id and createdAt, whatever was stored before, so a
   * DISABLED email is enabled again. Answers 204.
   */
  function Subscribe(store: Store, email: string, id: string, now: int): (r: Outcome)
    ensures r.store.Keys == store.Keys + {email}
    ensures forall k :: k != email ==> Get(r.store, k) == Get(store, k)
    ensures Get(r.store, email) == Some(Subscription(email, DefaultPk, ENABLED, id, now, None, None))
    ensures IsRecipient(r.store[email]) && r.store[email].status.Text() == "Subscribed"
    ensures r.reply == Respond(NoContent)
  {
    Outcome(store[email := Subscription(email, DefaultPk, ENABLED, id, now, None, None)], Respond(NoContent))
  }

  /** The write shared by unsubscribe and the SES feedback handlers: DISABLED with deletedAt, record kept. */
  function Disable(store: Store, email: string, now: int): (r: Store)
    ensures r.Keys == store.Keys
    ensures forall k :: k != email ==> Get(r, k) == Get(store, k)
    ensures email in store ==> r[email] == store[email].(status := DISABLED, deletedAt := Some(now))
  {
    if email in store then store[email := store[email].(status := DISABLED, deletedAt := Some(now))] else store
  }

  /**
   * unsubscribe. Call 0 is the GetItem, call 1 the UpdateItem. An unknown
   * email is a NotFoundError (404) and writes nothing; a known one is set
   * DISABLED with deletedAt and kept. Answers 204.
   */
  function Unsubscribe(store: Store, email: string, now: int, failingCall: Option<nat>): (r: Outcome)
    ensures email !in store ==> r.store == store && r.reply.Throw?
    ensures email !in store && failingCall != Some(0) ==>
              r.reply == Throw(DefaultNotFound) && r.reply.error.StatusCode() == 404
    ensures r.store == store || (email in store && r.store == Disable(store, email, now))
    ensures r.reply.Respond? <==> email in store && failingCall !in {Some(0), Some(1)}
    ensures r.reply.Respond? ==>
              r.reply == Respond(NoContent) && r.store == Disable(store, email, now) &&
              email in r.store && r.store[email].status == DISABLED && r.store[email].deletedAt == Some(now)
  {
    if failingCall == Some(0) then Outcome(store, Throw(InternalError("GetItem failed")))
    else if email !in store then Outcome(store, Throw(DefaultNotFound))
    else if failingCall == Some(1) then Outcome(store, Throw(InternalError("UpdateItem failed")))
    else Outcome(Disable(store, email, now), Respond(NoContent))
  }

  /** Unsubscribing a DISABLED email keeps it DISABLED and succeeds again; the record is never removed. */
  lemma UnsubscribeIdempotent(store: Store, email: string, now: int, later: int)
    requires email in store
    ensures var once := Unsubscribe(store, email, now, None);
            var twice := Unsubscribe(once.store, email, later, None);
            && twice.reply == Respond(NoContent)
            && twice.store.Keys == store.Keys
            && twice.store[email].status == DISABLED
            && twice.store[email] == once.store[email].(deletedAt := Some(later))
  {
  }

  /** Subscribing after unsubscribing enables the email again, with a new record. */
  lemma SubscribeAfterUnsubscribe(store: Store, email: string, now: int, id: string, later: int)
    requires email in store
    ensures var off := Unsubscribe(store, email, now, None).store;
            var on := Subscribe(off, email, id, later).store;
            off[email].status == DISABLED && on[email].status == ENABLED && on[email].deletedAt.None?
  {
  }

  // ---------------------------------------------------------------- list

  datatype ListParams = ListParams(limit: Option<int>, nextToken: Option<string>)

  /** What the status-index query read (rows in order) and its LastEvaluatedKey. */
  datatype ReadPage = ReadPage(rows: seq<Subscription>, lastEvaluatedKey: Option<string>)

  /** The query as a function of (limit, start key). */
  type Read = (Option<int>, Option<string>) -> ReadPage

  datatype ListResponse = ListResponse(statusCode: nat, items: seq<RecipientRow>, nextToken: Option<string>)

  /**
   * The subscriptions list: exactly one query (partition '1', ENABLED,
   * projected to id, status and email) for the requested limit and token; the
   * answer's token is the page's LastEvaluatedKey, or the request's echoed.
   * Always 200.
   */
  function ListSubscriptions(params: ListParams, query: Read): (r: ListResponse)
    ensures r.statusCode == 200
    ensures var page := query(params.limit, params.nextToken);
            && r.items == MatchingRows(page.rows)
            && (page.lastEvaluatedKey.Some? ==> r.nextToken == page.lastEvaluatedKey)
            && (page.lastEvaluatedKey.None? ==> r.nextToken == params.nextToken)
  {
    var page := query(params.limit, params.nextToken);
    ListResponse(200, MatchingRows(page.rows),
                 if page.lastEvaluatedKey.Some? then page.lastEvaluatedKey else params.nextToken)
  }

  /** Every listed row is an ENABLED recipient's projection, and every recipient read is listed. */
  lemma ListSubscriptionsMeaning(params: ListParams, query: Read)
    ensures var rows := query(params.limit, params.nextToken).rows;
            var items := ListSubscriptions(params, query).items;
            && (forall x :: x in items ==> x.status == ENABLED)
            && (forall s :: s in rows && IsRecipient(s) ==> Project(s) in items)
            && (forall x :: x in items ==> exists s :: s in rows && IsRecipient(s) && x == Project(s))
  {
    MatchingRowsMeaning(query(params.limit, params.nextToken).rows);
  }
}
