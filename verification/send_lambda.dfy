/**
 * The send Lambda of packages/functions/src/scheduler/send/index.ts, which
 * both SendTestEmailState and SendEmailState invoke.
 *
 * The deployed handler only computes the test-mode flag and answers 200
 * (`LiveMain`). The handler body the file keeps commented out (lines 55-108)
 * is modelled as the intended behaviour (`IntendedMain`): read the item,
 * send to the test address in test mode, otherwise page through every
 * ENABLED subscription and send to all of them in batches.
 */
module SendLambda {
  import opened Wrappers
  import opened Newsletters
  import opened Batching
  import opened Recipients

  /** A JavaScript time value: `new Date(x).getTime()` is NaN for a missing or unparsable `x`. */
  datatype TimeValue = Finite(ms: int) | NaN

  /** The time value of the event's `waitTimestamp` (None: absent or unparsable). */
  function TimeOf(t: Option<int>): TimeValue {
    match t
    case Some(ms) => Finite(ms)
    case None => NaN
  }

  /** Numeric `>`: every comparison involving NaN is false. */
  predicate Later(a: TimeValue, b: TimeValue) {
    a.Finite? && b.Finite? && a.ms > b.ms
  }

  /** What the handler reads from its event: the wait timestamp and the GetItem item. */
  datatype SendEvent = SendEvent(waitTimestamp: Option<int>, item: Option<Newsletter>)

  /**
   * `sendTestEamil`: test mode holds exactly when the event carries a wait
   * timestamp strictly later than now; an equal, earlier, missing or
   * unparsable one is not test mode.
   */
  function IsTestMode(event: SendEvent, now: int): (r: bool)
    ensures r <==> event.waitTimestamp.Some? && event.waitTimestamp.value > now
    ensures event.waitTimestamp.None? ==> !r
  {
    Later(TimeOf(event.waitTimestamp), Finite(now))
  }

  /** How one invocation ended: returned a status code, or threw. */
  datatype LambdaOutcome = Returned(statusCode: nat) | Threw

  /** One invocation: its end, the recipient queries it made and the SES requests it issued. */
  datatype Invocation = Invocation(outcome: LambdaOutcome, startKeys: seq<Option<Cursor>>, issued: seq<SendEmailRequest>)

  /** The deployed handler: it touches no table and no mailer and always answers 200. */
  function LiveMain(event: SendEvent, now: int): (r: Invocation)
    ensures r.outcome == Returned(200)
    ensures r.issued == [] && r.startKeys == []
  {
    var sendTestEmail := IsTestMode(event, now);
    Invocation(Returned(200), [], [])
  }

  /** Environment of the Lambda: SOURCE_EMAIL_ADDRESS and TEST_EMAIL_ADDRESS. */
  datatype SendEnv = SendEnv(source: Option<string>, testAddress: Option<string>)

  const DefaultSubject: string := "Welcome to my newsletter"

  /** `emailParameters`: the item's title (or the default subject) and its content. */
  function ParametersOf(n: Newsletter): EmailParameters {
    EmailParameters(n.title.GetOr(DefaultSubject), n.content)
  }

  /**
   * The intended handler. SES calls are numbered from 0 in order and
   * `failingCall` names the one that rejects. Without an item the unmarshalling
   * throws before anything is read or sent. In test mode exactly one request
   * goes to the test address and no query is made. Otherwise the recipients
   * are collected first and mail goes out only after paging completed: a failed
   * page sends nothing; after a complete one the requests cover exactly the
   * collected emails, in order, when every call succeeds.
   */
  method IntendedMain(event: SendEvent, now: int, env: SendEnv, index: RecipientIndex, failingCall: Option<nat>)
    returns (run: Invocation)
    ensures event.item.None? ==> run == Invocation(Threw, [], [])
    ensures forall j :: 0 <= j < |run.issued| ==>
              event.item.Some? && run.issued[j] == SesRequest(env.source, ParametersOf(event.item.value), run.issued[j].toAddresses)
    ensures event.item.Some? && IsTestMode(event, now) ==>
              run.startKeys == [] &&
              run.issued == [SesRequest(env.source, ParametersOf(event.item.value), [env.testAddress.GetOr("")])] &&
              (run.outcome == Returned(200) <==> failingCall != Some(0))
    ensures event.item.Some? && !IsTestMode(event, now) ==>
              |run.startKeys| >= 1 && run.startKeys[0] == None && Chained(index, run.startKeys)
    ensures event.item.Some? && !IsTestMode(event, now) && FetchFrom(index, None).None? ==>
              run.outcome == Threw && run.issued == []
    ensures event.item.Some? && !IsTestMode(event, now) && FetchFrom(index, None).Some? ==>
              (run.outcome == Returned(200) ==> AddressesOf(run.issued) == Emails(FetchFrom(index, None).value)) &&
              (run.outcome == Returned(200) <==> failingCall.None? || failingCall.value >= |Batches(Emails(FetchFrom(index, None).value))|)
  {
    if event.item.None? {
      return Invocation(Threw, [], []);
    }
    var emailParameters := ParametersOf(event.item.value);
    if IsTestMode(event, now) {
      var request := SesRequest(env.source, emailParameters, [env.testAddress.GetOr("")]);
      if failingCall == Some(0) {
        return Invocation(Threw, [], [request]);
      }
      return Invocation(Returned(200), [], [request]);
    }
    var items, startKeys := CollectRecipients(index);
    if items.None? {
      return Invocation(Threw, startKeys, []);
    }
    var emails := Emails(items.value);
    var issued, ok := SendEmailsInBatches(env.source, emailParameters, emails, failingCall);
    if !ok {
      return Invocation(Threw, startKeys, issued);
    }
    CompleteSendCoversList(env.source, emailParameters, emails, issued);
    return Invocation(Returned(200), startKeys, issued);
  }
}
