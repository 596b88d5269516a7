/**
 * The two tables over time. Every handler and every execution of the
 * scheduler is one action; a history is a sequence of them applied in order.
 * Two invariants hold over every history: only an execution's update step
 * makes a newsletter PUBLIC (and nothing writes publishedAt), and only
 * subscribe makes an email ENABLED.
 */
module Lifecycle {
  import opened Wrappers
  import N = Newsletters
  import S = Subscriptions
  import opened NewsletterHandlers
  import opened SubscriptionHandlers
  import opened Scheduler
  import opened EmailEvents

  // ---------------------------------------------------------------- newsletters

  /** One change to the newsletters table: a handler call, or a whole execution of the scheduler. */
  datatype NewsletterAction =
    | CreateNewsletter(body: CreateBody, id: string, now: int, sub: string, failingCall: Option<nat>)
    | UpdateNewsletter(id: string, update: UpdateBody, now: int, sub: string, failingCall: Option<nat>)
    | DeleteNewsletter(id: string, failingCall: Option<nat>)
    | PublishNewsletter(id: string, publish: PublishBody, now: int, sub: string, uuid: string, config: Config,
                        failingCall: Option<nat>)
    | UnpublishNewsletter(id: string, now: int, sub: string, failingCall: Option<nat>)
    | RunExecution(input: ExecutionInput, clock: int, failing: set<StateName>)

  function ApplyNewsletter(store: N.Store, a: NewsletterAction): N.Store {
    match a
    case CreateNewsletter(body, id, now, sub, failingCall) => Create(store, body, id, now, sub, failingCall).store
    case UpdateNewsletter(id, body, now, sub, failingCall) => Update(store, id, body, now, sub, failingCall).store
    case DeleteNewsletter(id, failingCall) => Delete(store, id, failingCall).store
    case PublishNewsletter(id, body, now, sub, uuid, config, failingCall) =>
      Publish(store, id, body, now, sub, uuid, config, failingCall).store
    case UnpublishNewsletter(id, now, sub, failingCall) => Unpublish(store, id, now, sub, failingCall).store
    case RunExecution(input, clock, failing) => Execute(input, clock, store, failing).table
  }

  function ApplyNewsletters(store: N.Store, history: seq<NewsletterAction>): N.Store
    decreases |history|
  {
    if |history| == 0 then store else ApplyNewsletters(ApplyNewsletter(store, history[0]), history[1..])
  }

  /** The ids the executions of a history were started for. */
  function ExecutedIds(history: seq<NewsletterAction>): (ids: set<string>)
    ensures forall i :: 0 <= i < |history| && history[i].RunExecution? ==> history[i].input.id in ids
    decreases |history|
  {
    if |history| == 0 then {}
    else
      var rest := ExecutedIds(history[1..]);
      assert forall i :: 1 <= i < |history| ==> history[i] == history[1..][i - 1];
      if history[0].RunExecution? then {history[0].input.id} + rest else rest
  }

  predicate IsPublic(store: N.Store, id: string) {
    id in store && store[id].status == N.PUBLIC
  }

  /**
   * `after` changes at most the record under `id`, and that record is PUBLIC
   * or carries a publishedAt afterwards only if it already did before.
   */
  ghost predicate PublishesNothing(store: N.Store, after: N.Store, id: string) {
    && (forall k :: k != id ==> Get(after, k) == Get(store, k))
    && (IsPublic(after, id) ==> IsPublic(store, id))
    && (id in after && after[id].publishedAt.Some? ==> id in store && after[id].publishedAt == store[id].publishedAt)
  }

  /**
   * Create, update, delete, publish and unpublish make nothing PUBLIC and
   * write no publishedAt; create, even over an existing id, writes a PRIVATE
   * record without one.
   */
  lemma HandlersPublishNothing(store: N.Store, a: NewsletterAction)
    requires !a.RunExecution?
    ensures PublishesNothing(store, ApplyNewsletter(store, a), a.id)
  {
    match a
    case CreateNewsletter(body, id, now, sub, failingCall) =>
    case UpdateNewsletter(id, body, now, sub, failingCall) =>
    case DeleteNewsletter(id, failingCall) =>
    case PublishNewsletter(id, body, now, sub, uuid, config, failingCall) =>
    case UnpublishNewsletter(id, now, sub, failingCall) =>
  }

  /** An execution makes at most its own record PUBLIC and writes no publishedAt. */
  lemma ExecutionPublishesItsId(input: ExecutionInput, clock: int, store: N.Store, failing: set<StateName>)
    ensures PublishesNothing(store, Execute(input, clock, store, failing).table, input.id) ||
            IsPublic(Execute(input, clock, store, failing).table, input.id)
    ensures forall k :: k != input.id ==> Get(Execute(input, clock, store, failing).table, k) == Get(store, k)
    ensures var after := Execute(input, clock, store, failing).table;
            input.id in after && after[input.id].publishedAt.Some? ==>
              input.id in store && after[input.id].publishedAt == store[input.id].publishedAt
  {
    ExecuteUpdatesOnlyStatus(input, clock, store, failing);
  }

  /**
   * One action: a record that is PUBLIC afterwards and was not before was made
   * so by an execution started for it; and a publishedAt present afterwards
   * was there before with the same value.
   */
  lemma ActionPublishes(store: N.Store, a: NewsletterAction)
    ensures var after := ApplyNewsletter(store, a);
            && (forall k :: IsPublic(after, k) && !IsPublic(store, k) ==> a.RunExecution? && a.input.id == k)
            && (forall k :: k in after && after[k].publishedAt.Some? ==>
                  k in store && after[k].publishedAt == store[k].publishedAt)
  {
    var after := ApplyNewsletter(store, a);
    var id := if a.RunExecution? then a.input.id else a.id;
    if a.RunExecution? {
      assert after == Execute(a.input, a.clock, store, a.failing).table;
      ExecutionPublishesItsId(a.input, a.clock, store, a.failing);
    } else {
      HandlersPublishNothing(store, a);
    }
    forall k | k != id
      ensures IsPublic(after, k) == IsPublic(store, k)
      ensures k in after && after[k].publishedAt.Some? ==> k in store && after[k].publishedAt == store[k].publishedAt
    {
      assert Get(after, k) == Get(store, k);
    }
  }

  /**
   * Over a whole history: a newsletter becomes PUBLIC only through an
   * execution started for it, publish, unpublish, create, update and delete
   * never do it, and no publishedAt is ever written.
   */
  lemma {:induction false} OnlyExecutionsPublish(store: N.Store, history: seq<NewsletterAction>)
    decreases |history|
    ensures var end := ApplyNewsletters(store, history);
            && (forall k :: IsPublic(end, k) && !IsPublic(store, k) ==> k in ExecutedIds(history))
            && (forall k :: k in end && end[k].publishedAt.Some? ==>
                  k in store && end[k].publishedAt == store[k].publishedAt)
  {
    if |history| > 0 {
      ActionPublishes(store, history[0]);
      OnlyExecutionsPublish(ApplyNewsletter(store, history[0]), history[1..]);
    }
  }

  // ---------------------------------------------------------------- subscriptions

  /** One change to the subscriptions table: a handler call or one SNS delivery to a feedback handler. */
  datatype SubscriptionAction =
    | SubscribeEmail(email: string, id: string, now: int)
    | UnsubscribeEmail(email: string, now: int, failingCall: Option<nat>)
    | DeliverFeedback(kind: Feedback, records: seq<SnsMessage>, now: int, failingCall: Option<nat>)

  function ApplySubscription(store: S.Store, a: SubscriptionAction): S.Store {
    match a
    case SubscribeEmail(email, id, now) => Subscribe(store, email, id, now).store
    case UnsubscribeEmail(email, now, failingCall) => Unsubscribe(store, email, now, failingCall).store
    case DeliverFeedback(kind, records, now, failingCall) => DisableFold(kind, store, records, now, failingCall, 0).store
  }

  function ApplySubscriptions(store: S.Store, history: seq<SubscriptionAction>): S.Store
    decreases |history|
  {
    if |history| == 0 then store else ApplySubscriptions(ApplySubscription(store, history[0]), history[1..])
  }

  /** The emails a history subscribes. */
  function SubscribedEmails(history: seq<SubscriptionAction>): (emails: set<string>)
    ensures forall i :: 0 <= i < |history| && history[i].SubscribeEmail? ==> history[i].email in emails
    decreases |history|
  {
    if |history| == 0 then {}
    else
      var rest := SubscribedEmails(history[1..]);
      assert forall i :: 1 <= i < |history| ==> history[i] == history[1..][i - 1];
      if history[0].SubscribeEmail? then {history[0].email} + rest else rest
  }

  predicate IsEnabled(store: S.Store, email: string) {
    email in store && store[email].status == S.ENABLED
  }

  /** One action: an email ENABLED afterwards and not before was subscribed by it. */
  lemma ActionEnables(store: S.Store, a: SubscriptionAction)
    ensures var after := ApplySubscription(store, a);
            forall k :: IsEnabled(after, k) && !IsEnabled(store, k) ==> a.SubscribeEmail? && a.email == k
  {
    match a
    case DeliverFeedback(kind, records, now, failingCall) =>
      FeedbackDisables(kind, store, records, now, failingCall);
    case _ =>
  }

  /**
   * Over a whole history: an email becomes ENABLED only through subscribe;
   * unsubscribe, bounces and delivery delays never enable anybody.
   */
  lemma {:induction false} OnlySubscribeEnables(store: S.Store, history: seq<SubscriptionAction>)
    decreases |history|
    ensures var end := ApplySubscriptions(store, history);
            forall k :: IsEnabled(end, k) && !IsEnabled(store, k) ==> k in SubscribedEmails(history)
  {
    if |history| > 0 {
      ActionEnables(store, history[0]);
      OnlySubscribeEnables(ApplySubscription(store, history[0]), history[1..]);
    }
  }
}
