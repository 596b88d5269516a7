/**
 * The newsletter write handlers of packages/functions/src/newsletters:
 * create, update, delete, publish and unpublish. Each is a pure transition
 * (store, request, clock, fresh id) -> (store', response, Step Functions calls).
 *
 * The AWS calls of a handler are numbered from 0 in the order it awaits them
 * and `failingCall` names the one that rejects; a rejection ends the handler
 * with a 500 and nothing after it happens.
 * An UpdateItem on an id the table does not hold writes nothing.
 */
module NewsletterHandlers {
  import opened Wrappers
  import opened Http
  import opened Newsletters

  /** EMAIL_SCHEDULER_SFN_SM_ARN (the execution ARN prefix) and EMAIL_SCHEDULER_SF_ARN. */
  datatype Config = Config(executionArnPrefix: string, stateMachineArn: string)

  /** The JSON input of a scheduler execution. */
  datatype ExecutionInput = ExecutionInput(id: string, waitTimestamp: int)

  /** The Step Functions requests a handler issues. */
  datatype SfnCall =
    | StartExecution(stateMachineArn: string, name: string, input: ExecutionInput)
    | StopExecution(executionArn: string, cause: string)

  datatype Body = NoBody | NewsletterBody(newsletter: Newsletter)

  datatype Reply = Respond(statusCode: nat, body: Body) | Throw(error: HttpError)

  /** A handler's effect: the table afterwards, the reply, the Step Functions calls issued. */
  datatype Outcome = Outcome(store: Store, reply: Reply, calls: seq<SfnCall>)

  /** ECMAScript time values lie within 8.64e15 ms of the epoch; `toISOString` throws RangeError beyond. */
  const MaxTimeValue: int := 8_640_000_000_000_000

  predicate IsValidTime(t: int) {
    -MaxTimeValue <= t <= MaxTimeValue
  }

  /** The ARN stored for an execution named `uuid`. */
  function ExecutionArn(config: Config, uuid: string): string {
    config.executionArnPrefix + ":" + uuid
  }

  // ---------------------------------------------------------------- create

  /** The create body: the schema requires both fields and allows no other. */
  datatype CreateBody = CreateBody(subject: string, content: string)

  /**
   * create: a new PRIVATE, unscheduled record under the fresh id, created and
   * updated by the caller now, answered 201 with the stored record. Nothing
   * else in the table changes. Call 0 is the PutItem; when it is rejected the
   * table is unchanged and the handler throws.
   */
  function Create(store: Store, body: CreateBody, id: string, now: int, sub: string,
                  failingCall: Option<nat>): (r: Outcome)
    ensures failingCall == Some(0) ==> r.store == store && r.reply.Throw?
    ensures failingCall != Some(0) ==>
              && id in r.store && r.store.Keys == store.Keys + {id}
              && (forall k :: k != id ==> Get(r.store, k) == Get(store, k))
              && r.store[id].id == id && r.store[id].status == PRIVATE
              && !IsScheduled(r.store[id]) && r.store[id].publishAt.None? && r.store[id].publishedAt.None?
              && r.store[id].subject == body.subject && r.store[id].content == body.content
              && r.store[id].createdBy == sub && r.store[id].updatedBy == Some(sub)
              && r.store[id].createdAt == now && r.store[id].updatedAt == Some(now)
              && r.reply == Respond(Created, NewsletterBody(r.store[id]))
    ensures r.calls == []
  {
    if failingCall == Some(0) then Outcome(store, Throw(InternalError("PutItem failed")), [])
    else
      var newsletter := Newsletter(
        id := id, subject := body.subject, content := body.content, status := PRIVATE,
        publishAt := None, publishedAt := None, sfExecutionArn := None,
        createdAt := now, createdBy := sub, updatedAt := Some(now), updatedBy := Some(sub),
        title := None, description := None, slug := None, image := None, contentMd := None, seo := None);
      Outcome(store[id := newsletter], Respond(Created, NewsletterBody(newsletter)), [])
  }

  // ---------------------------------------------------------------- update

  /** The update body: every field optional, no other field allowed (so neither status nor the ARN). */
  datatype UpdateBody = UpdateBody(
    title: Option<string>,
    description: Option<string>,
    slug: Option<string>,
    image: Option<string>,
    content: Option<string>,
    contentMd: Option<string>,
    seo: Option<Seo>,
    publishAt: Option<int>)

  /** A field the body sets takes the body's value; an absent one keeps the stored value. */
  function Pick<T>(given: Option<T>, stored: T): (r: T)
    ensures given.Some? ==> r == given.value
    ensures given.None? ==> r == stored
  {
    given.GetOr(stored)
  }

  function PickOpt<T>(given: Option<T>, stored: Option<T>): (r: Option<T>)
    ensures given.Some? ==> r == given
    ensures given.None? ==> r == stored
  {
    if given.Some? then given else stored
  }

  /**
   * update: a partial update of the record under the path id. The body's
   * fields and the audit fields change; status, schedule ARN, subject, creation
   * fields and publishedAt do not. No scheduler call is made, so a new
   * publishAt neither reschedules nor stops anything. Answers 204. Call 0 is
   * the UpdateItem; when it is rejected the table is unchanged and the handler
   * throws.
   */
  function Update(store: Store, id: string, body: UpdateBody, now: int, sub: string,
                  failingCall: Option<nat>): (r: Outcome)
    ensures r.store.Keys == store.Keys
    ensures failingCall == Some(0) ==> r.store == store && r.reply.Throw?
    ensures forall k :: k != id ==> Get(r.store, k) == Get(store, k)
    ensures id in store && failingCall != Some(0) ==>
              var before, after := store[id], r.store[id];
              && after.id == before.id && after.status == before.status
              && after.sfExecutionArn == before.sfExecutionArn
              && after.publishedAt == before.publishedAt
              && after.subject == before.subject
              && after.createdAt == before.createdAt && after.createdBy == before.createdBy
              && after.updatedAt == Some(now) && after.updatedBy == Some(sub)
              && (body.content.Some? ==> after.content == body.content.value)
              && (body.content.None? ==> after.content == before.content)
              && (body.publishAt.Some? ==> after.publishAt == body.publishAt)
              && (body.publishAt.None? ==> after.publishAt == before.publishAt)
              && (body.slug.Some? ==> after.slug == body.slug)
              && (body.slug.None? ==> after.slug == before.slug)
              && (body.title.Some? ==> after.title == body.title)
              && (body.title.None? ==> after.title == before.title)
              && (body.description.Some? ==> after.description == body.description)
              && (body.description.None? ==> after.description == before.description)
              && (body.image.Some? ==> after.image == body.image)
              && (body.image.None? ==> after.image == before.image)
              && (body.contentMd.Some? ==> after.contentMd == body.contentMd)
              && (body.contentMd.None? ==> after.contentMd == before.contentMd)
              && (body.seo.Some? ==> after.seo == body.seo)
              && (body.seo.None? ==> after.seo == before.seo)
    ensures failingCall != Some(0) ==> r.reply == Respond(NoContent, NoBody)
    ensures r.calls == []
  {
    if failingCall == Some(0) then Outcome(store, Throw(InternalError("UpdateItem failed")), [])
    else if id !in store then Outcome(store, Respond(NoContent, NoBody), [])
    else
      var n := store[id];
      var updated := n.(
        title := PickOpt(body.title, n.title),
        description := PickOpt(body.description, n.description),
        slug := PickOpt(body.slug, n.slug),
        image := PickOpt(body.image, n.image),
        content := Pick(body.content, n.content),
        contentMd := PickOpt(body.contentMd, n.contentMd),
        seo := PickOpt(body.seo, n.seo),
        publishAt := PickOpt(body.publishAt, n.publishAt),
        updatedAt := Some(now),
        updatedBy := Some(sub));
      Outcome(store[id := updated], Respond(NoContent, NoBody), [])
  }

  // ---------------------------------------------------------------- delete

  /**
   * delete: the record under the path id is gone, every other record is
   * untouched, and the answer is 204 whether or not it existed. No scheduler
   * call is made, so a scheduled execution keeps running. Call 0 is the
   * DeleteItem; when it is rejected the table is unchanged and the handler
   * throws.
   */
  function Delete(store: Store, id: string, failingCall: Option<nat>): (r: Outcome)
    ensures failingCall == Some(0) ==> r.store == store && r.reply.Throw?
    ensures failingCall != Some(0) ==>
              && id !in r.store && r.store.Keys == store.Keys - {id}
              && (forall k :: k != id ==> Get(r.store, k) == Get(store, k))
              && r.reply == Respond(NoContent, NoBody)
    ensures r.calls == []
  {
    if failingCall == Some(0) then Outcome(store, Throw(InternalError("DeleteItem failed")), [])
    else Outcome(store - {id}, Respond(NoContent, NoBody), [])
  }

  /** Deleting twice leaves the same table as deleting once. */
  lemma DeleteIdempotent(store: Store, id: string)
    ensures Delete(Delete(store, id, None).store, id, None) == Delete(store, id, None)
  {
    assert Delete(store, id, None).store - {id} == Delete(store, id, None).store;
  }

  // ---------------------------------------------------------------- publish

  /** The publish body: an optional publishAt and nothing else. */
  datatype PublishBody = PublishBody(publishAt: Option<int>)

  /**
   * publish. Call 0 is the UpdateItem, call 1 the StartExecution. The record
   * gets the ARN prefix + ':' + uuid, the body's publishAt (when given) and the
   * audit fields, but keeps its status; there is no check for an existing
   * schedule. The execution is named uuid and gets {id, waitTimestamp}, where
   * waitTimestamp is publishAt when given and now otherwise. It is started
   * only after the update succeeded, and only when publishAt is a valid time
   * (toISOString throws RangeError otherwise, after the record was written).
   * Success answers 204 with an empty body.
   */
  function Publish(store: Store, id: string, body: PublishBody, now: int, sub: string, uuid: string,
                   config: Config, failingCall: Option<nat>): (r: Outcome)
    ensures r.store.Keys == store.Keys
    ensures forall k :: k != id ==> Get(r.store, k) == Get(store, k)
    ensures failingCall == Some(0) ==> r.store == store && r.calls == [] && r.reply.Throw?
    ensures failingCall != Some(0) && id in store ==>
              var before, after := store[id], r.store[id];
              && after.sfExecutionArn == Some(ExecutionArn(config, uuid))
              && after.status == before.status && after.publishedAt == before.publishedAt
              && after.publishAt == PickOpt(body.publishAt, before.publishAt)
              && after.updatedAt == Some(now) && after.updatedBy == Some(sub)
              && after.content == before.content && after.subject == before.subject
    ensures failingCall != Some(0) && id in store ==>
              r.store[id] == store[id].(publishAt := PickOpt(body.publishAt, store[id].publishAt),
                                        sfExecutionArn := Some(ExecutionArn(config, uuid)),
                                        updatedAt := Some(now), updatedBy := Some(sub))
    ensures |r.calls| <= 1
    ensures forall c :: c in r.calls ==>
              c == StartExecution(config.stateMachineArn, uuid, ExecutionInput(id, body.publishAt.GetOr(now)))
    ensures r.calls == [] <==>
              failingCall == Some(0) || (body.publishAt.Some? && !IsValidTime(body.publishAt.value))
    ensures r.reply.Respond? <==> r.calls != [] && failingCall != Some(1)
    ensures r.reply.Respond? ==> r.reply == Respond(NoContent, NoBody)
  {
    if failingCall == Some(0) then
      Outcome(store, Throw(InternalError("UpdateItem failed")), [])
    else
      var store' :=
        if id in store then
          var n := store[id];
          store[id := n.(
            publishAt := PickOpt(body.publishAt, n.publishAt),
            sfExecutionArn := Some(ExecutionArn(config, uuid)),
            updatedAt := Some(now),
            updatedBy := Some(sub))]
        else store;
      if body.publishAt.Some? && !IsValidTime(body.publishAt.value) then
        Outcome(store', Throw(InternalError("RangeError: Invalid time value")), [])
      else
        var waitTimestamp := if body.publishAt.Some? then body.publishAt.value else now;
        var start := StartExecution(config.stateMachineArn, uuid, ExecutionInput(id, waitTimestamp));
        if failingCall == Some(1) then
          Outcome(store', Throw(InternalError("StartExecution failed")), [start])
        else
          Outcome(store', Respond(NoContent, NoBody), [start])
  }

  /**
   * Publish does not look at an existing schedule: two records that differ
   * only in their ARN get the same record written and the same execution
   * started, so a second publish overwrites the ARN and starts a second run.
   */
  lemma PublishIgnoresExistingSchedule(store: Store, id: string, arn: string, body: PublishBody, now: int, sub: string,
                                       uuid: string, config: Config, failingCall: Option<nat>)
    requires id in store
    ensures var rescheduled := store[id := store[id].(sfExecutionArn := Some(arn))];
            Publish(rescheduled, id, body, now, sub, uuid, config, failingCall).calls ==
              Publish(store, id, body, now, sub, uuid, config, failingCall).calls &&
            (failingCall != Some(0) ==>
              Publish(rescheduled, id, body, now, sub, uuid, config, failingCall).store ==
                Publish(store, id, body, now, sub, uuid, config, failingCall).store)
  {
  }

  // ---------------------------------------------------------------- unpublish

  const StopCause: string := "Stopped by user"
  const NotPublishedMessage: string := "Newsletter has not been published yet"

  /**
   * unpublish. Call 0 is the GetItem, call 1 the UpdateItem, call 2 the
   * StopExecution. A missing record makes `newsletter.sfExecutionArn` a
   * TypeError; a record without an ARN is a ValidationError (401); neither
   * writes or stops anything. Otherwise publishAt and the ARN are removed, the
   * audit fields set and status left alone, and then exactly the stored
   * execution is stopped with cause 'Stopped by user'. Success answers 204.
   */
  function Unpublish(store: Store, id: string, now: int, sub: string, failingCall: Option<nat>): (r: Outcome)
    ensures r.store.Keys == store.Keys
    ensures forall k :: k != id ==> Get(r.store, k) == Get(store, k)
    ensures id in store && store[id].sfExecutionArn.None? && failingCall != Some(0) ==>
              r == Outcome(store, Throw(ValidationError(NotPublishedMessage)), [])
    ensures id !in store ==> r.store == store && r.calls == [] && r.reply.Throw? && r.reply.error.StatusCode() == 500
    ensures r.calls != [] ==>
              id in store && store[id].sfExecutionArn.Some? &&
              r.calls == [StopExecution(store[id].sfExecutionArn.value, StopCause)]
    ensures r.store != store || r.calls != [] ==>
              id in store && store[id].sfExecutionArn.Some? && failingCall !in {Some(0), Some(1)}
    ensures id in store && store[id].sfExecutionArn.Some? && failingCall !in {Some(0), Some(1)} ==>
              var before, after := store[id], r.store[id];
              && after.sfExecutionArn.None? && after.publishAt.None?
              && after.status == before.status && after.publishedAt == before.publishedAt
              && after.updatedAt == Some(now) && after.updatedBy == Some(sub)
              && after.content == before.content && after.subject == before.subject
              && r.calls != []
    ensures id in store && store[id].sfExecutionArn.Some? && failingCall !in {Some(0), Some(1)} ==>
              r.store[id] == store[id].(publishAt := None, sfExecutionArn := None,
                                        updatedAt := Some(now), updatedBy := Some(sub))
    ensures r.reply.Respond? <==>
              id in store && store[id].sfExecutionArn.Some? && (failingCall.None? || failingCall.value > 2)
    ensures r.reply.Respond? ==> r.reply == Respond(NoContent, NoBody)
  {
    if failingCall == Some(0) then
      Outcome(store, Throw(InternalError("GetItem failed")), [])
    else if id !in store then
      Outcome(store, Throw(InternalError("TypeError: Cannot read properties of undefined")), [])
    else
      var newsletter := store[id];
      if newsletter.sfExecutionArn.None? then
        Outcome(store, Throw(ValidationError(NotPublishedMessage)), [])
      else if failingCall == Some(1) then
        Outcome(store, Throw(InternalError("UpdateItem failed")), [])
      else
        var store' := store[id := newsletter.(
          publishAt := None,
          sfExecutionArn := None,
          updatedAt := Some(now),
          updatedBy := Some(sub))];
        var stop := StopExecution(newsletter.sfExecutionArn.value, StopCause);
        if failingCall == Some(2) then
          Outcome(store', Throw(InternalError("StopExecution failed")), [stop])
        else
          Outcome(store', Respond(NoContent, NoBody), [stop])
  }

  /** A second unpublish right after a successful one is refused: the ARN is gone. */
  lemma UnpublishTwiceFails(store: Store, id: string, now: int, now2: int, sub: string, sub2: string,
                            failingCall: Option<nat>)
    requires Unpublish(store, id, now, sub, None).reply.Respond?
    requires failingCall != Some(0)
    ensures Unpublish(Unpublish(store, id, now, sub, None).store, id, now2, sub2, failingCall).reply ==
              Throw(ValidationError(NotPublishedMessage))
    ensures Unpublish(Unpublish(store, id, now, sub, None).store, id, now2, sub2, failingCall).reply.error.StatusCode() == 401
  {
    var first := Unpublish(store, id, now, sub, None);
    assert id in first.store && first.store[id].sfExecutionArn.None?;
  }
}
