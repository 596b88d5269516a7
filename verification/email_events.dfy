/**
 * The SES feedback handlers of packages/functions/src/emails: bounces,
 * generic-errors (delivery delays) and clicks. Each folds over the records of
 * one SNS event in order. A record whose message is the empty string is
 * skipped. A message that is not JSON makes `JSON.parse` throw, and a
 * qualifying message with no recipient makes `[0].emailAddress` throw; either
 * ends the invocation with the remaining records unprocessed. The writes are
 * numbered from 0 and `failingCall` names the one DynamoDB rejects, which
 * ends the invocation the same way. One clock reading serves the whole event.
 */
module EmailEvents {
  import opened Wrappers
  import opened Subscriptions
  import opened SubscriptionHandlers

  datatype Bounce = Bounce(bounceType: string, bouncedRecipients: seq<string>)
  datatype DeliveryDelay = DeliveryDelay(delayType: string, delayedRecipients: seq<string>)
  datatype CommonHeaders = CommonHeaders(from: seq<string>, to: seq<string>, subject: Option<string>, messageId: Option<string>)
  datatype Mail = Mail(commonHeaders: CommonHeaders)
  datatype Click = Click(link: string, timestamp: string)

  /** The SES event notification an SNS message carries. */
  datatype SesEvent = SesEvent(
    eventType: string,
    bounce: Option<Bounce>,
    deliveryDelay: Option<DeliveryDelay>,
    mail: Option<Mail>,
    click: Option<Click>)

  /** `record.Sns.Message`: the empty string, text `JSON.parse` rejects, or a parsed event. */
  datatype SnsMessage = EmptyMessage | Unparsable | Json(event: SesEvent)

  /** The two handlers that disable subscriptions. */
  datatype Feedback = PermanentBounce | TransientDelay

  /**
   * The recipient list of a message that calls for a write: a 'Bounce' with a
   * 'Permanent' bounce payload, or a 'DeliveryDelay' whose delay type is
   * 'TransientCommunicationFailure'. None for every other message.
   */
  function Recipients(kind: Feedback, m: SesEvent): (r: Option<seq<string>>)
    ensures r.Some? <==>
              match kind
              case PermanentBounce => m.eventType == "Bounce" && m.bounce.Some? && m.bounce.value.bounceType == "Permanent"
              case TransientDelay =>
                m.eventType == "DeliveryDelay" && m.deliveryDelay.Some? &&
                m.deliveryDelay.value.delayType == "TransientCommunicationFailure"
    ensures r.Some? ==>
              r.value == match kind
                         case PermanentBounce => m.bounce.value.bouncedRecipients
                         case TransientDelay => m.deliveryDelay.value.delayedRecipients
  {
    match kind
    case PermanentBounce =>
      if m.eventType == "Bounce" && m.bounce.Some? && m.bounce.value.bounceType == "Permanent" then
        Some(m.bounce.value.bouncedRecipients)
      else None
    case TransientDelay =>
      if m.eventType == "DeliveryDelay" && m.deliveryDelay.Some? && m.deliveryDelay.value.delayType == "TransientCommunicationFailure" then
        Some(m.deliveryDelay.value.delayedRecipients)
      else None
  }

  /** The writes a batch of records calls for, in order, and whether some record throws. */
  datatype Plan<T> = Plan(writes: seq<T>, throws: bool)

  /**
   * The reference for the disabling handlers: the first recipient of each
   * qualifying record, in record order, up to the first record that throws.
   */
  function Targets(kind: Feedback, records: seq<SnsMessage>): (p: Plan<string>)
    ensures |p.writes| <= |records|
  {
    if |records| == 0 then Plan([], false)
    else match records[0]
      case EmptyMessage => Targets(kind, records[1..])
      case Unparsable => Plan([], true)
      case Json(m) =>
        match Recipients(kind, m)
        case None => Targets(kind, records[1..])
        case Some(rs) =>
          if |rs| == 0 then Plan([], true)
          else var rest := Targets(kind, records[1..]); Plan([rs[0]] + rest.writes, rest.throws)
  }

  /** What one invocation did: the table afterwards, the writes that succeeded, and whether it returned. */
  datatype Run<S, T> = Run(store: S, written: seq<T>, completed: bool)

  /** `failingCall`, counted from the `done` writes already made. */
  predicate Rejects(failingCall: Option<nat>, done: nat) {
    failingCall.Some? && failingCall.value == done
  }

  /** The planned writes that happen when `done` writes precede them: those before the rejected one. */
  function Cut<T>(writes: seq<T>, failingCall: Option<nat>, done: nat): (r: seq<T>)
    ensures r <= writes
    ensures |r| < |writes| <==> failingCall.Some? && done <= failingCall.value < done + |writes|
  {
    if failingCall.Some? && done <= failingCall.value < done + |writes| then writes[..failingCall.value - done] else writes
  }

  /** A write that is not rejected happens, and the rest are cut one position later. */
  lemma CutCons<T>(x: T, writes: seq<T>, failingCall: Option<nat>, done: nat)
    requires !Rejects(failingCall, done)
    ensures Cut([x] + writes, failingCall, done) == [x] + Cut(writes, failingCall, done + 1)
  {
    if failingCall.Some? && done < failingCall.value < done + 1 + |writes| {
      assert ([x] + writes)[..failingCall.value - done] == [x] + writes[..failingCall.value - done - 1];
    }
  }

  /**
   * The bounce and delay handlers: disable the planned emails one write at a
   * time, stopping at a throwing record or the rejected write.
   */
  function DisableFold(kind: Feedback, store: Store, records: seq<SnsMessage>, now: int,
                       failingCall: Option<nat>, done: nat): (r: Run<Store, string>)
    decreases |records|
  {
    if |records| == 0 then Run(store, [], true)
    else match records[0]
      case EmptyMessage => DisableFold(kind, store, records[1..], now, failingCall, done)
      case Unparsable => Run(store, [], false)
      case Json(m) =>
        match Recipients(kind, m)
        case None => DisableFold(kind, store, records[1..], now, failingCall, done)
        case Some(rs) =>
          if |rs| == 0 then Run(store, [], false)
          else if Rejects(failingCall, done) then Run(store, [], false)
          else
            var rest := DisableFold(kind, Disable(store, rs[0], now), records[1..], now, failingCall, done + 1);
            Run(rest.store, [rs[0]] + rest.written, rest.completed)
  }

  /** The table after disabling `emails` in order. */
  function DisableEach(store: Store, emails: seq<string>, now: int): Store
    decreases |emails|
  {
    if |emails| == 0 then store else DisableEach(Disable(store, emails[0], now), emails[1..], now)
  }

  /**
   * The fold follows the plan: it writes the planned emails in order up to the
   * rejected write, returns exactly when no record throws and no planned write
   * is rejected.
   */
  lemma {:induction false} DisableFoldFollowsPlan(kind: Feedback, store: Store, records: seq<SnsMessage>, now: int,
                                                  failingCall: Option<nat>, done: nat)
    decreases |records|
    ensures var r, p := DisableFold(kind, store, records, now, failingCall, done), Targets(kind, records);
            && r.written == Cut(p.writes, failingCall, done)
            && (r.completed <==> !p.throws && r.written == p.writes)
  {
    if |records| > 0 {
      match records[0]
      case EmptyMessage =>
        DisableFoldFollowsPlan(kind, store, records[1..], now, failingCall, done);
      case Unparsable =>
      case Json(m) =>
        match Recipients(kind, m)
        case None =>
          DisableFoldFollowsPlan(kind, store, records[1..], now, failingCall, done);
        case Some(rs) =>
          if |rs| > 0 && !Rejects(failingCall, done) {
            DisableFoldFollowsPlan(kind, Disable(store, rs[0], now), records[1..], now, failingCall, done + 1);
            DisableFoldWrites(kind, store, records, now, failingCall, done, rs);
          }
    }
  }

  /** The step of `DisableFoldFollowsPlan` for a record whose first recipient is written. */
  lemma DisableFoldWrites(kind: Feedback, store: Store, records: seq<SnsMessage>, now: int,
                          failingCall: Option<nat>, done: nat, rs: seq<string>)
    requires |records| > 0 && records[0].Json? && Recipients(kind, records[0].event) == Some(rs)
    requires |rs| > 0 && !Rejects(failingCall, done)
    requires var r, p := DisableFold(kind, Disable(store, rs[0], now), records[1..], now, failingCall, done + 1), Targets(kind, records[1..]);
             && r.written == Cut(p.writes, failingCall, done + 1)
             && (r.completed <==> !p.throws && r.written == p.writes)
    ensures var r, p := DisableFold(kind, store, records, now, failingCall, done), Targets(kind, records);
            && r.written == Cut(p.writes, failingCall, done)
            && (r.completed <==> !p.throws && r.written == p.writes)
  {
    CutCons(rs[0], Targets(kind, records[1..]).writes, failingCall, done);
  }

  /** The table the fold leaves is the one disabling the written emails in turn gives. */
  lemma {:induction false} DisableFoldStore(kind: Feedback, store: Store, records: seq<SnsMessage>, now: int,
                                            failingCall: Option<nat>, done: nat)
    decreases |records|
    ensures var r := DisableFold(kind, store, records, now, failingCall, done);
            r.store == DisableEach(store, r.written, now)
  {
    if |records| > 0 {
      match records[0]
      case EmptyMessage =>
        DisableFoldStore(kind, store, records[1..], now, failingCall, done);
      case Unparsable =>
      case Json(m) =>
        match Recipients(kind, m)
        case None =>
          DisableFoldStore(kind, store, records[1..], now, failingCall, done);
        case Some(rs) =>
          if |rs| > 0 && !Rejects(failingCall, done) {
            DisableFoldStore(kind, Disable(store, rs[0], now), records[1..], now, failingCall, done + 1);
          }
    }
  }

  /** Disabling a list of emails changes only those emails, each to DISABLED with deletedAt, and enables none. */
  lemma {:induction false} DisableEachEffect(store: Store, emails: seq<string>, now: int)
    decreases |emails|
    ensures DisableEach(store, emails, now).Keys == store.Keys
    ensures forall k :: k !in emails ==> Get(DisableEach(store, emails, now), k) == Get(store, k)
    ensures forall k :: k in emails && k in store ==>
              DisableEach(store, emails, now)[k].status == DISABLED &&
              DisableEach(store, emails, now)[k].deletedAt == Some(now)
    ensures forall k :: k in store && DisableEach(store, emails, now)[k].status == ENABLED ==> store[k].status == ENABLED
  {
    if |emails| > 0 {
      var next := Disable(store, emails[0], now);
      DisableEachEffect(next, emails[1..], now);
      assert forall k :: k in emails ==> k == emails[0] || k in emails[1..];
    }
  }

  /** The bounces handler. */
  function HandleBounces(store: Store, records: seq<SnsMessage>, now: int, failingCall: Option<nat>): Run<Store, string> {
    DisableFold(PermanentBounce, store, records, now, failingCall, 0)
  }

  /** The generic-errors handler. */
  function HandleDelays(store: Store, records: seq<SnsMessage>, now: int, failingCall: Option<nat>): Run<Store, string> {
    DisableFold(TransientDelay, store, records, now, failingCall, 0)
  }

  /**
   * Both disabling handlers, on a batch where nothing throws and no write is
   * rejected, disable exactly the first recipient of every qualifying record
   * and change no other subscription; in every case they enable nobody.
   */
  lemma FeedbackDisables(kind: Feedback, store: Store, records: seq<SnsMessage>, now: int, failingCall: Option<nat>)
    ensures var r := DisableFold(kind, store, records, now, failingCall, 0);
            && r.store.Keys == store.Keys
            && (forall k :: k in r.store && r.store[k].status == ENABLED ==> store[k].status == ENABLED)
            && (forall k :: k !in r.written ==> Get(r.store, k) == Get(store, k))
            && (forall k :: k in r.written && k in store ==> r.store[k].status == DISABLED)
            && (failingCall.None? && !Targets(kind, records).throws ==>
                  r.completed && r.written == Targets(kind, records).writes)
  {
    var r := DisableFold(kind, store, records, now, failingCall, 0);
    DisableFoldFollowsPlan(kind, store, records, now, failingCall, 0);
    DisableFoldStore(kind, store, records, now, failingCall, 0);
    DisableEachEffect(store, r.written, now);
  }

  // ---------------------------------------------------------------- clicks

  /** A click row, keyed by (link, timestamp). */
  datatype ClickRow = ClickRow(link: string, timestamp: string, from: string, to: string, subject: string, messageId: string)
  {
    function Key(): (string, string) { (link, timestamp) }
  }

  type ClickTable = map<(string, string), ClickRow>

  /** `xs[0] ?? ''`. */
  function FirstOrEmpty(xs: seq<string>): (r: string)
    ensures |xs| > 0 ==> r == xs[0]
    ensures |xs| == 0 ==> r == ""
  {
    if |xs| > 0 then xs[0] else ""
  }

  /**
   * The row a 'Click' message with a click payload becomes: `from`/`to` are
   * the first header entries, `subject`/`messageId` the headers' values, each
   * '' when the mail object, the entry or the value is missing.
   */
  function ClickRowOf(m: SesEvent): (r: ClickRow)
    requires m.click.Some?
    ensures r.link == m.click.value.link && r.timestamp == m.click.value.timestamp
    ensures m.mail.None? ==> r.from == "" && r.to == "" && r.subject == "" && r.messageId == ""
    ensures m.mail.Some? ==>
              var h := m.mail.value.commonHeaders;
              && r.from == FirstOrEmpty(h.from) && r.to == FirstOrEmpty(h.to)
              && r.subject == h.subject.GetOr("") && r.messageId == h.messageId.GetOr("")
  {
    match m.mail
    case None => ClickRow(m.click.value.link, m.click.value.timestamp, "", "", "", "")
    case Some(mail) =>
      var h := mail.commonHeaders;
      ClickRow(m.click.value.link, m.click.value.timestamp, FirstOrEmpty(h.from), FirstOrEmpty(h.to),
               h.subject.GetOr(""), h.messageId.GetOr(""))
  }

  /**
   * The reference for the clicks handler: one row per 'Click' record, in
   * order, up to the first record that throws. A 'Click' without a click
   * payload has no link, so its put is refused.
   */
  function ClickPlan(records: seq<SnsMessage>): (p: Plan<ClickRow>)
    ensures |p.writes| <= |records|
  {
    if |records| == 0 then Plan([], false)
    else match records[0]
      case EmptyMessage => ClickPlan(records[1..])
      case Unparsable => Plan([], true)
      case Json(m) =>
        if m.eventType != "Click" then ClickPlan(records[1..])
        else if m.click.None? then Plan([], true)
        else var rest := ClickPlan(records[1..]); Plan([ClickRowOf(m)] + rest.writes, rest.throws)
  }

  /** The table after putting `rows` in order; a put replaces the row with the same key. */
  function PutEach(table: ClickTable, rows: seq<ClickRow>): ClickTable
    decreases |rows|
  {
    if |rows| == 0 then table else PutEach(table[rows[0].Key() := rows[0]], rows[1..])
  }

  /** The clicks handler: put one row per 'Click' record, stopping at a throw or the rejected put. */
  function ClickFold(table: ClickTable, records: seq<SnsMessage>, failingCall: Option<nat>, done: nat): (r: Run<ClickTable, ClickRow>)
    decreases |records|
  {
    if |records| == 0 then Run(table, [], true)
    else match records[0]
      case EmptyMessage => ClickFold(table, records[1..], failingCall, done)
      case Unparsable => Run(table, [], false)
      case Json(m) =>
        if m.eventType != "Click" then ClickFold(table, records[1..], failingCall, done)
        else if m.click.None? || Rejects(failingCall, done) then Run(table, [], false)
        else
          var row := ClickRowOf(m);
          var rest := ClickFold(table[row.Key() := row], records[1..], failingCall, done + 1);
          Run(rest.store, [row] + rest.written, rest.completed)
  }

  /**
   * The clicks handler follows its plan: the rows written are the planned ones
   * up to the rejected put, it returns exactly when nothing throws and no put
   * is rejected, and the table is the old one with those rows put in order.
   */
  lemma {:induction false} ClickFoldFollowsPlan(table: ClickTable, records: seq<SnsMessage>, failingCall: Option<nat>, done: nat)
    decreases |records|
    ensures var r, p := ClickFold(table, records, failingCall, done), ClickPlan(records);
            && r.written == Cut(p.writes, failingCall, done)
            && (r.completed <==> !p.throws && r.written == p.writes)
            && r.store == PutEach(table, r.written)
  {
    if |records| > 0 {
      match records[0]
      case EmptyMessage =>
        ClickFoldFollowsPlan(table, records[1..], failingCall, done);
      case Unparsable =>
      case Json(m) =>
        if m.eventType != "Click" {
          ClickFoldFollowsPlan(table, records[1..], failingCall, done);
        } else if m.click.Some? && !Rejects(failingCall, done) {
          var row := ClickRowOf(m);
          ClickFoldFollowsPlan(table[row.Key() := row], records[1..], failingCall, done + 1);
          CutCons(row, ClickPlan(records[1..]).writes, failingCall, done);
        }
    }
  }

  /** The last of `rows` whose key is `k`, if any. */
  function LastWithKey(rows: seq<ClickRow>, k: (string, string)): (r: Option<ClickRow>)
    ensures r.Some? ==> r.value in rows && r.value.Key() == k
    ensures r.None? <==> forall i :: 0 <= i < |rows| ==> rows[i].Key() != k
    decreases |rows|
  {
    if |rows| == 0 then None
    else
      var later := LastWithKey(rows[1..], k);
      if later.Some? then later
      else if rows[0].Key() == k then Some(rows[0])
      else (assert forall i :: 1 <= i < |rows| ==> rows[i] == rows[1..][i - 1]; None)
  }

  /**
   * A later put wins: the row under each key is the last written row with
   * that key, and a key no row carries keeps its old entry.
   */
  lemma {:induction false} PutEachLastWins(table: ClickTable, rows: seq<ClickRow>, k: (string, string))
    decreases |rows|
    ensures Get(PutEach(table, rows), k) == if LastWithKey(rows, k).Some? then LastWithKey(rows, k) else Get(table, k)
  {
    if |rows| > 0 {
      PutEachLastWins(table[rows[0].Key() := rows[0]], rows[1..], k);
    }
  }
}
