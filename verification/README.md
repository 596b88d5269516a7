# Newsletter scheduling and send pipeline — a Dafny model

This project models the serverless newsletter back end as pure state
transitions over in-memory tables. The pieces modelled are:

- the **broadcast state machine** (SendTestEmail → Wait → UpdateNewsletterContent →
  GetNewsletterContent → SendEmail → Succeed, each task caught into
  PublishError → Fail);
- the **send Lambda**:
  - the live handler, which returns 200 without sending;
  - the commented-out intended handler, with its paginated recipient loop and
    the batched SES send in slices of 50;
- the **newsletter handlers**: create, update, delete, publish and unpublish;
- the **subscription handlers**: subscribe, unsubscribe and the one-page list;
- the **SES feedback handlers**:
  - bounces, which disable subscriptions;
  - delivery delays, which disable subscriptions;
  - clicks, which write click rows;
- the **read side**:
  - the newsletter list with its comparator `sortItems`;
  - get by id with slug fallback;
  - `isAdmin`.

Each handler is a function of:

- the table or tables it touches;
- its request;
- the clock reading (`now`, integer milliseconds);
- the fresh ids (`randomUUID`);
- `failingCall: Option<nat>`, which names the AWS call (numbered from 0 in
  program order) that the service rejects.

It returns the new tables, the reply (`Respond` or `Throw` with an
`HttpError` carrying the status code), and the Step Functions calls it made.
DynamoDB reads whose results the code does not determine are parameters: the
scan, query and slug-index pages.

The files follow the program:

| file | module | models |
|---|---|---|
| wrappers.dfy | `Wrappers` | `Option`, map lookup |
| http.dfy | `Http` | `ValidationError` (401), `NotFoundError` (404), `UnauthorizedError` (401), status codes |
| authorizer.dfy | `Authorizer` | `isAdmin` |
| newsletters.dfy, subscriptions.dfy | `Newsletters`, `Subscriptions` | records, statuses, table keys and defaults |
| batching.dfy | `Batching` | `sendEmailsInBatches`, `sendEmails` |
| recipients.dfy | `Recipients` | the recipient pagination loop |
| send_lambda.dfy | `SendLambda` | the send Lambda's `main`, live and intended |
| newsletter_handlers.dfy | `NewsletterHandlers` | create, update, delete, publish, unpublish |
| scheduler.dfy | `Scheduler` | the Step Functions definition as an explicit machine |
| newsletter_queries.dfy | `NewsletterQueries` | newsletter list and get |
| subscription_handlers.dfy | `SubscriptionHandlers` | subscribe, unsubscribe, subscription list |
| email_events.dfy | `EmailEvents` | bounces, generic-errors, clicks |
| lifecycle.dfy | `Lifecycle` | histories of handler calls and executions |

Where the system's design description and the code disagree, the model
follows the code:

- The design describes parallel test and main branches, retries with
  backoff, bounded parallel batch sends, and a cancel that ends the job
  `Failed`. The code declares one sequential chain with no retry, sends the
  batches one after another, and stops an execution with
  `states:StopExecution`, which the model represents as the status `Aborted`.
- The design has the test branch read the content. In the code,
  SendTestEmail is invoked with the execution input `{id, waitTimestamp}`
  only.

## Model

| member | source | states |
|---|---|---|
| Authorizer.IsAdmin | packages/core/src/libs/authorizer.ts:3-7 | false without an authorizer, without claims or without 'cognito:groups'; for a list of groups, true iff 'admin' is one of them; for a string claim, true iff 'admin' occurs in it as a substring |
| Authorizer.HasInfixIsOccurrence | packages/core/src/libs/authorizer.ts:6 | the recursive substring test used for `includes` on a string is true iff the pattern occurs at some index |
| Batching.Batches | packages/functions/src/scheduler/send/index.ts:17-24 | the number of batches is ceil(n/50), so an empty list has none |
| Batching.BatchSizes | packages/functions/src/scheduler/send/index.ts:12-21 | every batch holds 1 to 50 addresses, and every batch but the last exactly 50 |
| Batching.BatchesConcat | packages/functions/src/scheduler/send/index.ts:17-24 | the batches concatenated in order are exactly the address list |
| Batching.BatchIsWindow | packages/functions/src/scheduler/send/index.ts:20-21 | batch j is the slice from 50·j to 50·j+50, clipped to the list |
| Batching.CompleteSendCoversList | packages/functions/src/scheduler/send/index.ts:17-24 | a complete run of requests, one per window, addresses exactly the list in order |
| Batching.SendEmailsInBatches | packages/functions/src/scheduler/send/index.ts:17-24 | the sends are issued in batch order, request j carrying window j as its ToAddresses, with the source, subject and body shared by every batch; if send k throws, no later batch is sent; the call returns iff no send throws |
| Recipients.CollectRecipients | packages/functions/src/scheduler/send/index.ts:76-102 | the loop starts with no startKey, passes each LastEvaluatedKey to the next query, stops at the first page without one, and yields the pages' rows in order; a failed page query yields nothing |
| Recipients.FetchFromMeaning | packages/functions/src/scheduler/send/index.ts:80-102 | the accumulated rows are all the index's rows from the starting page on; the fetch fails iff one of the pages it reaches fails |
| Recipients.Emails | packages/functions/src/scheduler/send/index.ts:107 | the address list is the rows' emails, one per row, in order |
| SendLambda.IsTestMode | packages/functions/src/scheduler/send/index.ts:53 | test mode iff waitTimestamp is present and strictly later than now; an equal, earlier or missing timestamp is not test mode |
| SendLambda.LiveMain | packages/functions/src/scheduler/send/index.ts:50-114 | the live handler sends nothing, queries nothing and returns 200 |
| SendLambda.IntendedMain | packages/functions/src/scheduler/send/index.ts:55-108 | intended handler: no item means it throws before any call; in test mode, one send to the test address and no query; otherwise sends only after pagination completes, a failed page means no send, and on success the batches cover every recipient's email in order; every request carries the item's title (default 'Welcome to my newsletter') and content |
| NewsletterHandlers.Create | packages/functions/src/newsletters/create/index.ts:8-25 | a new record under the fresh id: PRIVATE, no publishAt, no publishedAt, no ARN, subject and content from the body, created and updated by the caller's sub at now; the reply is 201 with the record; nothing else changes; a rejected put throws and leaves the table unchanged |
| NewsletterHandlers.Update | packages/functions/src/newsletters/update/index.ts:6-23 | a partial update under the path id: each of title, description, slug, image, content, contentMd, seo and publishAt takes the body's value when given and keeps the stored one when absent; status, ARN, publishedAt, subject, id and creation fields do not change; updatedAt/updatedBy become now/sub; no scheduler call is made; 204; a rejected UpdateItem throws and leaves the table unchanged |
| NewsletterHandlers.Delete | packages/functions/src/newsletters/delete/index.ts:6-15 | the path id is removed and every other record kept; 204 whether or not it existed; no execution is stopped; a rejected DeleteItem throws and leaves the table unchanged |
| NewsletterHandlers.DeleteIdempotent | packages/functions/src/newsletters/delete/index.ts:7-9 | deleting twice leaves the table deleting once leaves |
| NewsletterHandlers.Publish | packages/functions/src/newsletters/publish/index.ts:10-40 | the record gets ARN = state-machine ARN + ':' + uuid, the body's publishAt, updatedAt/updatedBy, and every other field (status, publishedAt, title, content and the rest) is kept; the execution is started only after a successful update, is named uuid and gets {id, publishAt or now}; an invalid publishAt throws after the write; a failed update starts nothing; success is 204 |
| NewsletterHandlers.PublishIgnoresExistingSchedule | packages/functions/src/newsletters/publish/index.ts:14-35 | an existing ARN makes no difference: the same record is written and a second execution is started |
| NewsletterHandlers.Unpublish | packages/functions/src/newsletters/unpublish/index.ts:11-50 | a missing record throws (500); a record without an ARN throws ValidationError('Newsletter has not been published yet') and writes nothing; otherwise publishAt and the ARN are removed, updatedAt/updatedBy set, every other field kept, and then exactly the stored execution is stopped with cause 'Stopped by user'; success is 204 |
| NewsletterHandlers.UnpublishTwiceFails | packages/functions/src/newsletters/unpublish/index.ts:21-36 | an unpublish right after a successful one fails with that ValidationError, status 401 |
| Scheduler.Start | packages/functions/src/newsletters/publish/index.ts:26-33 | an execution starts running at SendTestEmailState with no invocation and no alert |
| Scheduler.SetPublic | stacks/SchedulerStack.ts:63-82 | the update step sets only `status` to PUBLIC, only on the record under $.id |
| Scheduler.ChainFollowsNext | stacks/SchedulerStack.ts:120 | the chain is the successor path from SendTestEmailState to SucceedState |
| Scheduler.Step | stacks/SchedulerStack.ts:24-120 | a step moves along an edge of the definition (successor, or a catch into PublishErrorState) or ends the execution; only the update step writes the table (SetPublic on the document's id), only Wait moves the clock (to max(clock, waitTimestamp)), and only PublishErrorState adds an alert, namely the document it received |
| Scheduler.Run | stacks/SchedulerStack.ts:24-120 | every run ends with a status other than Running; it can end Succeeded only at SucceedState |
| Scheduler.Cancel | packages/functions/src/newsletters/unpublish/index.ts:39-44 | stopping a running execution aborts it where it stands; a finished one is left as it is |
| Scheduler.CancelIsFinal | packages/functions/src/newsletters/unpublish/index.ts:39-44 | a stopped execution takes no further step |
| Scheduler.FirstFailure | stacks/SchedulerStack.ts:48-120 | the first failing task from a state along the chain, or SucceedState when none fails |
| Scheduler.RunFollowsRoute | stacks/SchedulerStack.ts:24-120 | from any state a run of publish's input reaches, the trace, status, alert, table write, clock and invocations are those the first failing task determines |
| Scheduler.FirstFailureIsFirst | stacks/SchedulerStack.ts:48-120 | no task before the first failure fails, and it is SucceedState iff no task from there on fails |
| Scheduler.ExecuteFollowsChain | stacks/SchedulerStack.ts:120 | when no task fails, the run visits SendTestEmail, Wait, UpdateNewsletterContent, GetNewsletterContent, SendEmail, Succeed in that order and succeeds with no alert; the record is made PUBLIC and the clock is max(start, waitTimestamp) |
| Scheduler.ExecuteCatchesFailure | stacks/SchedulerStack.ts:26-115 | if task t is the first to fail, the run is the chain up to t, then PublishError and Fail; no later chain state runs; the run fails with one alert carrying t's error, unless publishing the alert fails; the table is written iff t comes after the update step |
| Scheduler.ExecuteEnds | stacks/SchedulerStack.ts:24-120 | every uncancelled run ends Succeeded or Failed, Succeeded iff no task fails; at most one alert is published, none on success |
| Scheduler.ExecuteUpdatesOnlyStatus | stacks/SchedulerStack.ts:63-88 | a run changes at most the record under its id, and that record only to status PUBLIC |
| Scheduler.ExecuteInvocations | stacks/SchedulerStack.ts:48-115 | SendTestEmail gets {id, waitTimestamp} and is in test mode iff waitTimestamp is later than its time; SendEmail gets only the GetItem output, read after the update, so the item is PUBLIC and SendEmail is never in test mode |
| NewsletterQueries.CompareIsTotalPreorder | packages/functions/src/newsletters/list/index.ts:9-22 | the comparator is antisymmetric, total and transitive |
| NewsletterQueries.BeforeMeaning | packages/functions/src/newsletters/list/index.ts:10-21 | a comes no later than b iff a is published when b is, and, within one group, a's publishedAt-or-createdAt is at least b's |
| NewsletterQueries.SortItemsPermutes | packages/functions/src/newsletters/list/index.ts:9-22 | sorting returns a permutation of its input |
| NewsletterQueries.SortItemsOrders | packages/functions/src/newsletters/list/index.ts:9-22 | after sorting, published items precede unpublished ones, each group in non-increasing publishedAt or createdAt order |
| NewsletterQueries.InsertSorted | packages/functions/src/newsletters/list/index.ts:9-22 | inserting into a sorted list keeps it sorted |
| NewsletterQueries.PublicSummariesMeaning | packages/functions/src/newsletters/list/index.ts:42-51 | the public items are exactly the PUBLIC rows, each cut down to status, subject, publishedAt and content |
| NewsletterQueries.ListNewsletters | packages/functions/src/newsletters/list/index.ts:24-61 | as written: an admin with no query parameter gets the first scan page sorted and its LastEvaluatedKey; an admin with any parameter gets no items and the request's nextToken echoed; others get the PUBLIC summaries of one status-index page, with the page's LastEvaluatedKey when present and otherwise the request's nextToken; always 200 |
| NewsletterQueries.ListNewslettersCorrected | packages/functions/src/newsletters/list/index.ts:29-40 | corrected: an admin's limit and nextToken reach the scan, and the page comes back sorted with its nextToken; others are answered as before |
| NewsletterQueries.ListVisibility | packages/functions/src/newsletters/list/index.ts:29-51 | non-admins see only PUBLIC items; admins see full records that are exactly the page's rows, as a multiset, in comparator order; the handler as written gives admins the same items when there is no query parameter |
| NewsletterQueries.AdminSecondPageIsLost | packages/functions/src/newsletters/list/index.ts:30-34 | an admin asking for the page after token 'k' gets [] and 'k' back, where the corrected handler returns that page |
| NewsletterQueries.FirstWithSlug | packages/functions/src/newsletters/get/index.ts:19-28 | the first slug-index row with that slug, or none when no row has it |
| NewsletterQueries.GetNewsletter | packages/functions/src/newsletters/get/index.ts:9-38 | a record under the id is returned and the slug lookup skipped; otherwise the first slug match, cut down to status, subject, publishedAt and content, or an empty body; NotFound iff the caller is not admin and the found record is PRIVATE |
| NewsletterQueries.GetVisibility | packages/functions/src/newsletters/get/index.ts:30-37 | an admin always gets 200; a non-admin never gets a PRIVATE record |
| Subscriptions.MatchingRowsMeaning | packages/functions/src/subscriptions/list/index.ts:14-25 | the query yields exactly the rows with pk '1' and status ENABLED, projected to id, status and email |
| SubscriptionHandlers.Subscribe | packages/functions/src/subscriptions/subscribe/index.ts:9-27 | the email's record becomes ENABLED ('Subscribed') with pk '1', the fresh id and createdAt, whatever was stored before; others are kept; 204 |
| SubscriptionHandlers.SubscribeAfterUnsubscribe | packages/functions/src/subscriptions/subscribe/index.ts:10-17 | subscribing an unsubscribed email enables it again |
| SubscriptionHandlers.Disable | packages/functions/src/subscriptions/unsubscribe/index.ts:17-25 | the email's record becomes DISABLED with deletedAt and is kept; other records are unchanged |
| SubscriptionHandlers.Unsubscribe | packages/functions/src/subscriptions/unsubscribe/index.ts:8-31 | an unknown email throws NotFoundError (404) and writes nothing; a known one is set DISABLED with deletedAt and kept; 204 |
| SubscriptionHandlers.UnsubscribeIdempotent | packages/functions/src/subscriptions/unsubscribe/index.ts:17-25 | unsubscribing a DISABLED email keeps it DISABLED, succeeds again, and never removes the record |
| SubscriptionHandlers.ListSubscriptions | packages/functions/src/subscriptions/list/index.ts:8-36 | one page, with no loop: the ENABLED pk '1' rows of that page, and the page's LastEvaluatedKey or else the request's nextToken; 200 |
| SubscriptionHandlers.ListSubscriptionsMeaning | packages/functions/src/subscriptions/list/index.ts:14-29 | every listed row is an ENABLED subscription of the page, and every such subscription is listed |
| EmailEvents.Recipients | packages/functions/src/emails/bounces/index.ts:17-18 | a record calls for a write iff it is a 'Bounce' whose bounce payload has type 'Permanent' (for generic-errors, a 'DeliveryDelay' of type 'TransientCommunicationFailure'), and then the recipients are that payload's list |
| EmailEvents.Targets | packages/functions/src/emails/bounces/index.ts:13-33 | reference: the first recipient of each qualifying record in record order, skipping empty messages, up to the first record that throws |
| EmailEvents.DisableFoldFollowsPlan | packages/functions/src/emails/bounces/index.ts:13-33 | the handler disables exactly the reference's emails, in order, up to a rejected write; it completes iff no record throws and no write is rejected |
| EmailEvents.DisableFoldStore | packages/functions/src/emails/bounces/index.ts:20-29 | the table afterwards is the one disabling the written emails in turn gives |
| EmailEvents.DisableEachEffect | packages/functions/src/emails/bounces/index.ts:20-29 | each written email is DISABLED with deletedAt; others are unchanged; nothing is enabled or removed |
| EmailEvents.FeedbackDisables | packages/functions/src/emails/generic-errors/index.ts:13-33 | bounces and delays: without a throw or a rejection, exactly the first recipient of every qualifying record is disabled; every other subscription is unchanged; nobody is ever enabled |
| EmailEvents.ClickRowOf | packages/functions/src/emails/clicks/index.ts:14-24 | a click row carries the click's link and timestamp; `from`/`to` are the first header entries and `subject`/`messageId` the headers, each '' when the mail object or the entry is missing |
| EmailEvents.ClickPlan | packages/functions/src/emails/clicks/index.ts:9-31 | reference: one row per 'Click' record in order, skipping empty messages and other event types, up to the first record that throws |
| EmailEvents.ClickFoldFollowsPlan | packages/functions/src/emails/clicks/index.ts:9-31 | the handler puts exactly the reference's rows, in order, up to a rejected put; it completes iff nothing throws and no put is rejected |
| EmailEvents.PutEachLastWins | packages/functions/src/emails/clicks/index.ts:27 | the row stored under a (link, timestamp) key is the last put with that key; other keys keep their entry |
| Lifecycle.HandlersPublishNothing | packages/functions/src/newsletters/publish/index.ts:14-20 | create, update, delete, publish and unpublish make no record PUBLIC and write no publishedAt |
| Lifecycle.ExecutionPublishesItsId | stacks/SchedulerStack.ts:63-82 | an execution changes only the record under its own id, and never its publishedAt |
| Lifecycle.ActionPublishes | stacks/SchedulerStack.ts:63-82 | after any single action, a record newly PUBLIC was made so by an execution for that id |
| Lifecycle.OnlyExecutionsPublish | stacks/SchedulerStack.ts:63-82 | over any history, a newsletter becomes PUBLIC only through an execution started for it, and no publishedAt is ever written |
| Lifecycle.ActionEnables | packages/functions/src/subscriptions/subscribe/index.ts:10-15 | after any single action, an email newly ENABLED was subscribed by it |
| Lifecycle.OnlySubscribeEnables | packages/functions/src/subscriptions/subscribe/index.ts:14 | over any history, only subscribe moves an email to ENABLED; unsubscribe, bounces and delays never do |

## Left out

- AWS calls (DynamoDB, SES, SNS, Step Functions) are not modelled as services:
  - their results are parameters (pages, rows);
  - their rejections are `failingCall`.
- A rejected call is a `Throw` carrying an `InternalError`. The
  middleware that maps errors to HTTP bodies is not part of this model.
- A DynamoDB UpdateItem on a key that the table does not hold is modelled as
  writing nothing. This applies to:
  - publish on a missing id;
  - update on a missing id;
  - the machine's update step after the record was deleted;
  - a bounce or delay for an unknown email.

  DynamoDB would create a partial item instead. The source does not state
  either outcome, so this is an explicit assumption.
- DynamoDB index semantics (sparse indexes, key ordering, page sizes and
  `limit`) are not modelled.
  - The scan, query and slug-index results are parameters.
  - The newsletter status-index is keyed on publishedAt, which nothing
    writes, so whether PUBLIC records appear in the non-admin list depends
    on index behaviour that is outside this model.
- The nextToken codec (base64 of the JSON key, RFC 4648 section 4) is
  modelled as the identity on an opaque key string, which is injective.
- Clock readings: each handler receives one `now`.
  - In the source, create calls `Date.now()` twice, publish reads the
    clock twice (`Date.now()` for updatedAt and `new Date()` for the
    default waitTimestamp, so that timestamp is never earlier than
    updatedAt), and the feedback handlers call it once per record.
  - The model uses a single reading for all of them.
- Date parsing and formatting are not modelled. Timestamps are integer
  milliseconds, and a waitTimestamp outside the ECMAScript time range makes
  publish throw after its write.
- The JSON schemas' length bounds and the email pattern are not
  modelled. Bodies carry only the fields their schemas allow; the create,
  update and publish schema files are the source for that.
- The list schema files are not part of this model. The list handlers'
  parameters are taken to be `limit` and `nextToken`.
- Newsletter `deletedAt`/`deletedBy` exist in the interface but are never
  written, so they are not fields of the model.
- Step Functions durability, concurrent executions for the same newsletter,
  SES rate limits, and SNS or Lambda retries are not modelled.
- An execution's run is atomic with respect to the handlers in `Lifecycle`. A
  handler call cannot fall between two of its steps.
- StopExecution on an execution that has already finished is modelled as
  leaving it unchanged (`Scheduler.Cancel`). Its AWS error is not modelled.
- The intended send handler reads `event.body.Item`. The machine passes the
  GetItem output as the whole event, and SendTestEmail passes only the input.
  - The model passes the newsletter the machine read (`SendEvent.item`)
    straight to the handler, and unmarshalling is not modelled.
  - On the real envelope the intended handler would throw at SendTestEmail.
- Failures of the read handlers (get, the lists) are not modelled. Neither
  is the failure of subscribe's put.
- The complaints and postman handlers, the HTML template, the CDK stacks
  other than the chain, and the IAM policies are not modelled.
- NewsletterQueries.SortItems: `Array.prototype.sort` is stable. The model's
  insertion sort is stable too, but stability is not stated as a property.

## Findings

| source | as written | input that shows it | evidently intended | confidence | as-written member | corrected member |
|---|---|---|---|---|---|---|
| packages/functions/src/newsletters/list/index.ts:29-40 | the admin scan runs only when the query string is empty, so the `limit` and `nextToken` passed to it are always undefined; any parameter gives an empty list | admin request with `nextToken` = 'k' returns `items: []` and echoes 'k', so the second page can never be read; latent under the routes as deployed, since `GET /newsletters` has no authorizer (stacks/ApiStack.ts:107-108) and so `isAdmin` is false there | the admin scan uses the request's limit and nextToken like the non-admin query | medium, not executed | NewsletterQueries.ListNewsletters, NewsletterQueries.AdminSecondPageIsLost | NewsletterQueries.ListNewslettersCorrected |
